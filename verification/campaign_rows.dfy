/**
 * The campaign aggregate: membership, invitations, content grants and character custody. This module is the
 * specification of every command: a verdict (the guards, in source order) and an effect.
 */
module CampaignRows {
  import opened Wrappers
  import opened Policy

  type CampaignId = string
  type InvitationId = string
  type ContentId = string
  type SheetId = string
  type VersionId = string
  type TokenHash = string
  type SheetState = string

  datatype Campaign = Campaign(
    active: bool, version: VersionId, revision: nat, accessRevision: nat, members: map<UserId, Member>)

  datatype InvitationStatus = Pending | Accepted | Declined | Revoked

  datatype Invitation = Invitation(
    campaign: CampaignId, role: Role, hash: TokenHash, expires: int, status: InvitationStatus, revision: nat,
    consumer: Option<UserId>, acceptedGeneration: Option<nat>)

  datatype Content = Content(
    campaign: CampaignId, creator: UserId, audience: ContentAudience, deleted: bool, revision: nat, grants: set<UserId>)

  datatype Designation = Designation(campaign: CampaignId, designator: UserId)

  datatype Placement = Placement(generation: nat, campaign: CampaignId, returnOwner: Option<UserId>, ended: bool)

  /** A character with its controller, designation and placement rows. */
  datatype Sheet = Sheet(
    owner: Option<UserId>, campaign: Option<CampaignId>, returnOwner: Option<UserId>, version: VersionId,
    revision: nat, generation: nat, state: SheetState, archived: bool,
    controllers: map<UserId, CampaignId>, designations: map<UserId, Designation>, placements: seq<Placement>)

  datatype Limits = Limits(maxMembers: nat, maxAttached: nat)

  /** `minted` only records which token hashes were ever in use. */
  datatype State = State(
    limits: Limits, campaigns: map<CampaignId, Campaign>, invitations: map<InvitationId, Invitation>,
    contents: map<ContentId, Content>, sheets: map<SheetId, Sheet>, minted: set<TokenHash>)

  datatype Outcome = Done | NotFound | Conflict | BadRequest | Unavailable

  /** Ids and token hashes minted by a command are arguments; `Enabled` says they are new. */
  datatype Command =
    | CreateCampaign(campaign: CampaignId, version: VersionId)
    | UpdateMetadata(campaign: CampaignId, expected: nat)
    | SetLifecycle(campaign: CampaignId, active: bool, expected: nat)
    | ChangeRole(campaign: CampaignId, target: UserId, role: Role, expected: nat)
    | RemoveMember(campaign: CampaignId, target: UserId, expected: nat)
    | IssueInvitation(campaign: CampaignId, invitation: InvitationId, role: Role, hash: TokenHash, expires: int,
      expected: nat)
    | AcceptInvitation(campaign: CampaignId, hash: TokenHash, invitationRevision: nat, accessRevision: nat, now: int)
    | DeclineInvitation(campaign: CampaignId, hash: TokenHash, invitationRevision: nat, accessRevision: nat, now: int)
    | RotateInvitation(campaign: CampaignId, invitation: InvitationId, hash: TokenHash, expires: int,
      invitationRevision: nat, expected: nat)
    | RevokeInvitation(campaign: CampaignId, invitation: InvitationId, invitationRevision: nat, expected: nat)
    | CreateContent(campaign: CampaignId, content: ContentId, audience: Option<ContentAudience>, grants: set<UserId>)
    | ReplaceGrants(content: ContentId, grants: set<UserId>, expected: nat)
    | CreateInCampaign(campaign: CampaignId, sheet: SheetId, version: VersionId, state: SheetState,
      requested: Option<seq<UserId>>, generation: nat, expected: nat)
    | AdoptSheet(campaign: CampaignId, sheet: SheetId, generation: nat, expected: nat, sheetRevision: nat)
    | AssignControllers(campaign: CampaignId, sheet: SheetId, users: seq<UserId>, designees: seq<UserId>,
      generation: nat, expected: nat, sheetRevision: nat)
    | ClaimSheet(campaign: CampaignId, sheet: SheetId, generation: nat, expected: nat, sheetRevision: nat)

  // ---------- reading rows ----------

  function MemberOf(campaigns: map<CampaignId, Campaign>, c: CampaignId, u: UserId): Option<Member> {
    if c in campaigns then Find(campaigns[c].members, u) else None
  }

  predicate ActiveIn(campaign: Campaign, u: UserId) { IsActive(Find(campaign.members, u)) }

  predicate AllActive(campaign: Campaign, users: set<UserId>) { forall u :: u in users ==> ActiveIn(campaign, u) }

  function ActiveMembers(campaign: Campaign): set<UserId> { set u | u in campaign.members && ActiveIn(campaign, u) }

  function Attached(sheets: map<SheetId, Sheet>, c: CampaignId): set<SheetId> {
    set k | k in sheets && sheets[k].campaign == Some(c)
  }

  predicate Distinct(users: seq<UserId>) { forall i, j :: 0 <= i < j < |users| ==> users[i] != users[j] }

  function AsSet(users: seq<UserId>): set<UserId> { set u | u in users }

  /** The unique index on token hashes. */
  ghost predicate UniqueHashes(invitations: map<InvitationId, Invitation>) {
    forall i, j {:trigger invitations[i], invitations[j]} ::
      i in invitations && j in invitations && invitations[i].hash == invitations[j].hash ==> i == j
  }

  ghost predicate HashInUse(invitations: map<InvitationId, Invitation>, hash: TokenHash) {
    exists i :: i in invitations && invitations[i].hash == hash
  }

  ghost function WithHash(invitations: map<InvitationId, Invitation>, hash: TokenHash): (i: InvitationId)
    requires HashInUse(invitations, hash)
    ensures i in invitations && invitations[i].hash == hash
  {
    var i :| i in invitations && invitations[i].hash == hash; i
  }

  // ---------- guards ----------

  function CampaignGate(s: State, actor: UserId, c: CampaignId, manages: bool, activeOnly: bool,
      expected: nat): Outcome
  {
    var m := MemberOf(s.campaigns, c, actor);
    if !IsActive(m) then NotFound
    else if activeOnly && !s.campaigns[c].active then Conflict
    else if manages && !IsGameMaster(m) then NotFound
    else if s.campaigns[c].revision != expected then Conflict
    else Done
  }

  function DenialOutcome(d: Denial): Outcome {
    match d
    case NotMember => NotFound
    case NotManager => NotFound
    case OwnerOnlyDenial => NotFound
    case OwnerImmutable => BadRequest
    case SelfOnly => BadRequest
  }

  function RoleVerdict(s: State, actor: UserId, c: CampaignId, target: UserId, role: Role, expected: nat): Outcome {
    var caller := MemberOf(s.campaigns, c, actor);
    if !IsActive(caller) then NotFound
    else if !s.campaigns[c].active then Conflict
    else var denial := AuthorizeRoleChange(caller, MemberOf(s.campaigns, c, target), role);
    if denial.Some? then DenialOutcome(denial.value)
    else if s.campaigns[c].revision != expected then Conflict
    else Done
  }

  function RemovalVerdict(s: State, actor: UserId, c: CampaignId, target: UserId, expected: nat): Outcome {
    var caller := MemberOf(s.campaigns, c, actor);
    if !IsActive(caller) then NotFound
    else var denial := AuthorizeRemoval(actor, caller, target, MemberOf(s.campaigns, c, target));
    if denial.Some? then DenialOutcome(denial.value)
    else if s.campaigns[c].revision != expected then Conflict
    else Done
  }

  function LifecycleVerdict(s: State, actor: UserId, c: CampaignId, active: bool, expected: nat): Outcome {
    if !IsGameMaster(MemberOf(s.campaigns, c, actor)) then NotFound
    else if s.campaigns[c].active == active || s.campaigns[c].revision != expected then Conflict
    else Done
  }

  function IssueVerdict(s: State, actor: UserId, c: CampaignId, role: Role, expected: nat): Outcome {
    var m := MemberOf(s.campaigns, c, actor);
    if role == Owner then BadRequest
    else if !IsGameMaster(m) then NotFound
    else if !s.campaigns[c].active then Conflict
    else if role == CoGm && m.value.role != Owner then NotFound
    else if s.campaigns[c].revision != expected then Conflict
    else Done
  }

  /** What accepting and declining check alike. */
  ghost function ConsumeVerdict(s: State, c: CampaignId, hash: TokenHash, invitationRevision: nat, accessRevision: nat,
      now: int): Outcome {
    if !HashInUse(s.invitations, hash) then Unavailable
    else var i := s.invitations[WithHash(s.invitations, hash)];
    if i.campaign != c || !i.status.Pending? || i.expires <= now then Unavailable
    else if c !in s.campaigns || !s.campaigns[c].active then Unavailable
    else if i.revision != invitationRevision || s.campaigns[c].accessRevision != accessRevision then Conflict
    else Done
  }

  ghost function AcceptVerdict(s: State, actor: UserId, c: CampaignId, hash: TokenHash, invitationRevision: nat,
      accessRevision: nat, now: int): Outcome {
    var v := ConsumeVerdict(s, c, hash, invitationRevision, accessRevision, now);
    if !v.Done? then v
    else if ActiveIn(s.campaigns[c], actor) then BadRequest
    else if |ActiveMembers(s.campaigns[c])| >= s.limits.maxMembers then Conflict
    else Done
  }

  /** The look-up by token hash that precedes the locks of an acceptance or a decline. */
  ghost function LookUp(s: State, c: CampaignId, hash: TokenHash): Option<InvitationId> {
    if HashInUse(s.invitations, hash) && s.invitations[WithHash(s.invitations, hash)].campaign == c
    then Some(WithHash(s.invitations, hash))
    else None
  }

  /** What both check under the locks of the row an earlier look-up named. */
  function LocatedVerdict(s: State, c: CampaignId, id: InvitationId, hash: TokenHash, invitationRevision: nat,
      accessRevision: nat, now: int): Outcome {
    if id !in s.invitations then Unavailable
    else var i := s.invitations[id];
    if i.campaign != c || i.hash != hash || !i.status.Pending? || i.expires <= now then Unavailable
    else if c !in s.campaigns || !s.campaigns[c].active then Unavailable
    else if i.revision != invitationRevision || s.campaigns[c].accessRevision != accessRevision then Conflict
    else Done
  }

  function LocatedAcceptVerdict(s: State, actor: UserId, c: CampaignId, id: InvitationId, hash: TokenHash,
      invitationRevision: nat, accessRevision: nat, now: int): Outcome {
    var v := LocatedVerdict(s, c, id, hash, invitationRevision, accessRevision, now);
    if !v.Done? then v
    else if ActiveIn(s.campaigns[c], actor) then BadRequest
    else if |ActiveMembers(s.campaigns[c])| >= s.limits.maxMembers then Conflict
    else Done
  }

  function InvitationGate(s: State, actor: UserId, c: CampaignId, id: InvitationId): Outcome {
    var m := MemberOf(s.campaigns, c, actor);
    if !IsGameMaster(m) || id !in s.invitations || s.invitations[id].campaign != c then NotFound
    else if s.invitations[id].role == CoGm && m.value.role != Owner then NotFound
    else Done
  }

  function RotateVerdict(s: State, actor: UserId, c: CampaignId, id: InvitationId, invitationRevision: nat,
      expected: nat): Outcome {
    var v := InvitationGate(s, actor, c, id);
    if !v.Done? then v
    else if !s.invitations[id].status.Pending? then Conflict
    else if s.campaigns[c].revision != expected || s.invitations[id].revision != invitationRevision then Conflict
    else Done
  }

  function RevokeVerdict(s: State, actor: UserId, c: CampaignId, id: InvitationId, invitationRevision: nat,
      expected: nat): Outcome {
    var v := InvitationGate(s, actor, c, id);
    if !v.Done? then v
    else if s.invitations[id].revision != invitationRevision || s.campaigns[c].revision != expected then Conflict
    else Done
  }

  function CreateContentVerdict(s: State, actor: UserId, c: CampaignId, audience: Option<ContentAudience>,
      grants: set<UserId>): Outcome {
    var m := MemberOf(s.campaigns, c, actor);
    if !IsActive(m) then NotFound
    else if !s.campaigns[c].active then Conflict
    else if !IsGameMaster(m) && ((audience.Some? && audience.value != OwnerOnlyNote) || grants != {}) then BadRequest
    else if !AllActive(s.campaigns[c], grants) then BadRequest
    else Done
  }

  function ReplaceGrantsVerdict(s: State, actor: UserId, id: ContentId, grants: set<UserId>, expected: nat): Outcome {
    if id !in s.contents then NotFound else
    var note := s.contents[id];
    var m := MemberOf(s.campaigns, note.campaign, actor);
    if !IsActive(m) then NotFound
    else if !s.campaigns[note.campaign].active then Conflict
    else if note.deleted || !CanAdministerSharing(note.audience, note.creator, note.grants, actor, m) then NotFound
    else if !AllActive(s.campaigns[note.campaign], grants) then BadRequest
    else if note.revision != expected then Conflict
    else Done
  }

  function PlacementGate(s: State, actor: UserId, c: CampaignId, generation: nat): Outcome {
    var m := MemberOf(s.campaigns, c, actor);
    if !IsActive(m) then NotFound
    else if !s.campaigns[c].active || m.value.generation != generation then Conflict
    else Done
  }

  /** A manager names any controllers (none by default); a player only themselves. */
  function Controllers(s: State, actor: UserId, c: CampaignId, requested: Option<seq<UserId>>): set<UserId> {
    if !IsGameMaster(MemberOf(s.campaigns, c, actor)) then {actor}
    else if requested.Some? then AsSet(requested.value)
    else {}
  }

  function CreateInCampaignVerdict(s: State, actor: UserId, c: CampaignId, version: VersionId,
      requested: Option<seq<UserId>>, generation: nat, expected: nat): Outcome {
    var v := PlacementGate(s, actor, c, generation);
    if !v.Done? then v
    else if version != s.campaigns[c].version then BadRequest
    else if s.campaigns[c].revision != expected then Conflict
    else if !IsGameMaster(MemberOf(s.campaigns, c, actor)) && requested.Some? && requested.value != [actor]
    then BadRequest
    else if !AllActive(s.campaigns[c], Controllers(s, actor, c, requested)) then BadRequest
    else if |Attached(s.sheets, c)| >= s.limits.maxAttached then BadRequest
    else Done
  }

  function AdoptVerdict(s: State, actor: UserId, c: CampaignId, id: SheetId, generation: nat, expected: nat,
      sheetRevision: nat): Outcome {
    var v := PlacementGate(s, actor, c, generation);
    if !v.Done? then v
    else if s.campaigns[c].revision != expected then Conflict
    else if id !in s.sheets || s.sheets[id].owner != Some(actor) then NotFound
    else if s.sheets[id].archived || s.sheets[id].campaign.Some? then Conflict
    else if s.sheets[id].version != s.campaigns[c].version then BadRequest
    else if s.sheets[id].revision != sheetRevision then Conflict
    else if |Attached(s.sheets, c)| >= s.limits.maxAttached then BadRequest
    else Done
  }

  /** The first designee at fault decides. */
  function DesigneesVerdict(campaign: Campaign, sheet: Sheet, users: set<UserId>, designees: seq<UserId>): Outcome {
    if |designees| == 0 then Done
    else if !ActiveIn(campaign, designees[0]) || designees[0] in users then BadRequest
    else if designees[0] in sheet.designations then Conflict
    else DesigneesVerdict(campaign, sheet, users, designees[1..])
  }

  function AssignVerdict(s: State, actor: UserId, c: CampaignId, id: SheetId, users: seq<UserId>,
      designees: seq<UserId>, generation: nat, expected: nat, sheetRevision: nat): Outcome {
    if !Distinct(users) || !Distinct(designees) then BadRequest
    else if !IsGameMaster(MemberOf(s.campaigns, c, actor)) then NotFound
    else var v := PlacementGate(s, actor, c, generation);
    if !v.Done? then v
    else if s.campaigns[c].revision != expected then Conflict
    else if id !in s.sheets || s.sheets[id].campaign != Some(c) then NotFound
    else if s.sheets[id].revision != sheetRevision then Conflict
    else if s.sheets[id].returnOwner.Some? && s.sheets[id].returnOwner.value !in users then BadRequest
    else if !AllActive(s.campaigns[c], AsSet(users)) then BadRequest
    else DesigneesVerdict(s.campaigns[c], s.sheets[id], AsSet(users), designees)
  }

  function ClaimVerdict(s: State, actor: UserId, c: CampaignId, id: SheetId, generation: nat, expected: nat,
      sheetRevision: nat): Outcome {
    var v := PlacementGate(s, actor, c, generation);
    if !v.Done? then v
    else if s.campaigns[c].revision != expected then Conflict
    else if id !in s.sheets || s.sheets[id].campaign != Some(c) then NotFound
    else if s.sheets[id].revision != sheetRevision then Conflict
    else if actor !in s.sheets[id].designations then NotFound
    else Done
  }

  ghost function Verdict(s: State, actor: UserId, cmd: Command): Outcome {
    match cmd
    case CreateCampaign(_, _) => Done
    case UpdateMetadata(c, expected) => CampaignGate(s, actor, c, true, true, expected)
    case SetLifecycle(c, active, expected) => LifecycleVerdict(s, actor, c, active, expected)
    case ChangeRole(c, target, role, expected) => RoleVerdict(s, actor, c, target, role, expected)
    case RemoveMember(c, target, expected) => RemovalVerdict(s, actor, c, target, expected)
    case IssueInvitation(c, _, role, _, _, expected) => IssueVerdict(s, actor, c, role, expected)
    case AcceptInvitation(c, hash, ir, ar, now) => AcceptVerdict(s, actor, c, hash, ir, ar, now)
    case DeclineInvitation(c, hash, ir, ar, now) => ConsumeVerdict(s, c, hash, ir, ar, now)
    case RotateInvitation(c, id, _, _, ir, expected) => RotateVerdict(s, actor, c, id, ir, expected)
    case RevokeInvitation(c, id, ir, expected) => RevokeVerdict(s, actor, c, id, ir, expected)
    case CreateContent(c, _, audience, grants) => CreateContentVerdict(s, actor, c, audience, grants)
    case ReplaceGrants(id, grants, expected) => ReplaceGrantsVerdict(s, actor, id, grants, expected)
    case CreateInCampaign(c, _, version, _, requested, g, expected) =>
      CreateInCampaignVerdict(s, actor, c, version, requested, g, expected)
    case AdoptSheet(c, id, g, expected, sr) => AdoptVerdict(s, actor, c, id, g, expected, sr)
    case AssignControllers(c, id, users, designees, g, expected, sr) =>
      AssignVerdict(s, actor, c, id, users, designees, g, expected, sr)
    case ClaimSheet(c, id, g, expected, sr) => ClaimVerdict(s, actor, c, id, g, expected, sr)
  }

  predicate ByToken(cmd: Command) { cmd.AcceptInvitation? || cmd.DeclineInvitation? }

  /** The decision as it is made under the locks, on the invitation `found` by an earlier look-up. */
  ghost function LockedVerdict(s: State, actor: UserId, cmd: Command, found: Option<InvitationId>): Outcome {
    match cmd
    case AcceptInvitation(c, hash, ir, ar, now) =>
      if found.None? then Unavailable else LocatedAcceptVerdict(s, actor, c, found.value, hash, ir, ar, now)
    case DeclineInvitation(c, hash, ir, ar, now) =>
      if found.None? then Unavailable else LocatedVerdict(s, c, found.value, hash, ir, ar, now)
    case _ => Verdict(s, actor, cmd)
  }

  // ---------- effects ----------

  function Bumped(campaign: Campaign): Campaign {
    campaign.(revision := campaign.revision + 1, accessRevision := campaign.accessRevision + 1)
  }

  /** A member who comes back keeps the row and starts its next generation. */
  function Joined(existing: Option<Member>, role: Role): Member {
    Member(role, Active, if existing.Some? then existing.value.generation + 1 else 1)
  }

  function Left(m: Member): Member { m.(status := Removed, generation := m.generation + 1) }

  function WithMember(campaign: Campaign, u: UserId, m: Member): Campaign {
    campaign.(members := campaign.members[u := m])
  }

  function Ended(placements: seq<Placement>): (r: seq<Placement>)
    ensures |r| == |placements|
    ensures forall i :: 0 <= i < |r| ==> r[i] == placements[i].(ended := true)
  {
    if |placements| == 0 then [] else [placements[0].(ended := true)] + Ended(placements[1..])
  }

  /** An adopted sheet goes back to its return owner with the state it has now. */
  function Returned(sheet: Sheet): Sheet {
    sheet.(owner := sheet.returnOwner, campaign := None, returnOwner := None, revision := sheet.revision + 1,
      generation := sheet.generation + 1,
      controllers := map[], designations := map[], placements := Ended(sheet.placements))
  }

  function WithoutMember(sheet: Sheet, c: CampaignId, u: UserId): Sheet {
    sheet.(
      controllers := map v | v in sheet.controllers && !(v == u && sheet.controllers[v] == c) :: sheet.controllers[v],
      designations :=
        map v | v in sheet.designations &&
                !(sheet.designations[v].campaign == c && (v == u || sheet.designations[v].designator == u))
              :: sheet.designations[v])
  }

  function Released(sheet: Sheet, c: CampaignId, u: UserId): Sheet {
    if sheet.campaign == Some(c) && sheet.returnOwner == Some(u) then Returned(sheet) else WithoutMember(sheet, c, u)
  }

  function Revoking(note: Content, c: CampaignId, u: UserId): Content {
    if note.campaign == c then note.(grants := note.grants - {u}) else note
  }

  function Consumed(i: Invitation, status: InvitationStatus, actor: UserId, generation: Option<nat>): Invitation {
    i.(status := status, consumer := Some(actor), acceptedGeneration := generation, revision := i.revision + 1)
  }

  function Rotated(i: Invitation, hash: TokenHash, expires: int): Invitation {
    i.(hash := hash, expires := expires, revision := i.revision + 1)
  }

  function RevokedInvitation(i: Invitation): Invitation { i.(status := Revoked, revision := i.revision + 1) }

  function NewNote(s: State, actor: UserId, c: CampaignId, audience: Option<ContentAudience>,
      grants: set<UserId>): Content
  {
    var default := if IsGameMaster(MemberOf(s.campaigns, c, actor)) then GmOnlyNote else OwnerOnlyNote;
    Content(c, actor, if audience.Some? then audience.value else default, false, if grants == {} then 1 else 2, grants)
  }

  function ControlledBy(users: set<UserId>, c: CampaignId): map<UserId, CampaignId> { map u | u in users :: c }

  function NewSheet(c: CampaignId, version: VersionId, state: SheetState, users: set<UserId>): Sheet {
    Sheet(None, Some(c), None, version, 1, 1, state, false, ControlledBy(users, c), map[],
      [Placement(1, c, None, false)])
  }

  function Adopted(sheet: Sheet, c: CampaignId, actor: UserId): Sheet {
    sheet.(owner := None, campaign := Some(c), returnOwner := Some(actor), revision := sheet.revision + 1,
      generation := sheet.generation + 1,
      controllers := if actor in sheet.controllers then sheet.controllers else sheet.controllers[actor := c],
      placements := sheet.placements + [Placement(sheet.generation + 1, c, Some(actor), false)])
  }

  function Designating(designations: map<UserId, Designation>, designees: set<UserId>, c: CampaignId,
      actor: UserId): map<UserId, Designation> {
    designations + map u | u in designees :: Designation(c, actor)
  }

  function Assigned(sheet: Sheet, c: CampaignId, users: set<UserId>, designees: set<UserId>, actor: UserId): Sheet {
    sheet.(controllers := ControlledBy(users, c), designations := Designating(sheet.designations, designees, c, actor))
  }

  function Claimed(sheet: Sheet, c: CampaignId, actor: UserId): Sheet {
    sheet.(designations := sheet.designations - {actor},
      controllers := if actor in sheet.controllers then sheet.controllers else sheet.controllers[actor := c])
  }

  // Table by table, what a command that is granted leaves behind.

  predicate OnNote(cmd: Command) { cmd.CreateContent? || cmd.ReplaceGrants? }

  ghost function CampaignAfter(s: State, actor: UserId, cmd: Command): Campaign
    requires Verdict(s, actor, cmd).Done? && !OnNote(cmd)
  {
    var c := cmd.campaign;
    if cmd.CreateCampaign? then Campaign(true, cmd.version, 1, 1, map[actor := Member(Owner, Active, 1)])
    else if cmd.UpdateMetadata? then s.campaigns[c].(revision := s.campaigns[c].revision + 1)
    else if cmd.SetLifecycle? then Bumped(s.campaigns[c]).(active := cmd.active)
    else if cmd.ChangeRole? then
      WithMember(Bumped(s.campaigns[c]), cmd.target, s.campaigns[c].members[cmd.target].(role := cmd.role))
    else if cmd.RemoveMember? then
      WithMember(Bumped(s.campaigns[c]), cmd.target, Left(s.campaigns[c].members[cmd.target]))
    else if cmd.AcceptInvitation? then
      var role := s.invitations[WithHash(s.invitations, cmd.hash)].role;
      WithMember(Bumped(s.campaigns[c]), actor, Joined(MemberOf(s.campaigns, c, actor), role))
    else if cmd.RevokeInvitation? && s.invitations[cmd.invitation].status != Pending then s.campaigns[c]
    else Bumped(s.campaigns[c])
  }

  ghost function CampaignsAfter(s: State, actor: UserId, cmd: Command): map<CampaignId, Campaign>
    requires Verdict(s, actor, cmd).Done?
  {
    if OnNote(cmd) then s.campaigns else s.campaigns[cmd.campaign := CampaignAfter(s, actor, cmd)]
  }

  ghost function InvitationsAfter(s: State, actor: UserId, cmd: Command): map<InvitationId, Invitation>
    requires Verdict(s, actor, cmd).Done?
  {
    match cmd
    case IssueInvitation(c, id, role, hash, expires, _) =>
      s.invitations[id := Invitation(c, role, hash, expires, Pending, 1, None, None)]
    case AcceptInvitation(c, hash, _, _, _) =>
      var id := WithHash(s.invitations, hash);
      var member := Joined(MemberOf(s.campaigns, c, actor), s.invitations[id].role);
      s.invitations[id := Consumed(s.invitations[id], Accepted, actor, Some(member.generation))]
    case DeclineInvitation(_, hash, _, _, _) =>
      var id := WithHash(s.invitations, hash);
      s.invitations[id := Consumed(s.invitations[id], Declined, actor, None)]
    case RotateInvitation(_, id, hash, expires, _, _) => s.invitations[id := Rotated(s.invitations[id], hash, expires)]
    case RevokeInvitation(_, id, _, _) =>
      if s.invitations[id].status.Pending? then s.invitations[id := RevokedInvitation(s.invitations[id])]
      else s.invitations
    case _ => s.invitations
  }

  function MintedAfter(s: State, cmd: Command): set<TokenHash> {
    if cmd.IssueInvitation? || cmd.RotateInvitation? then s.minted + {cmd.hash} else s.minted
  }

  ghost function ContentsAfter(s: State, actor: UserId, cmd: Command): map<ContentId, Content>
    requires Verdict(s, actor, cmd).Done?
  {
    match cmd
    case RemoveMember(c, target, _) => map k | k in s.contents :: Revoking(s.contents[k], c, target)
    case CreateContent(c, id, audience, grants) => s.contents[id := NewNote(s, actor, c, audience, grants)]
    case ReplaceGrants(id, grants, _) =>
      s.contents[id := s.contents[id].(grants := grants, revision := s.contents[id].revision + 1)]
    case _ => s.contents
  }

  ghost function SheetsAfter(s: State, actor: UserId, cmd: Command): map<SheetId, Sheet>
    requires Verdict(s, actor, cmd).Done?
  {
    match cmd
    case RemoveMember(c, target, _) => map k | k in s.sheets :: Released(s.sheets[k], c, target)
    case CreateInCampaign(c, id, version, state, requested, _, _) =>
      s.sheets[id := NewSheet(c, version, state, Controllers(s, actor, c, requested))]
    case AdoptSheet(c, id, _, _, _) => s.sheets[id := Adopted(s.sheets[id], c, actor)]
    case AssignControllers(c, id, users, designees, _, _, _) =>
      s.sheets[id := Assigned(s.sheets[id], c, AsSet(users), AsSet(designees), actor)]
    case ClaimSheet(c, id, _, _, _) => s.sheets[id := Claimed(s.sheets[id], c, actor)]
    case _ => s.sheets
  }

  ghost function Effect(s: State, actor: UserId, cmd: Command): State
    requires Verdict(s, actor, cmd).Done?
  {
    State(s.limits, CampaignsAfter(s, actor, cmd), InvitationsAfter(s, actor, cmd), ContentsAfter(s, actor, cmd),
      SheetsAfter(s, actor, cmd), MintedAfter(s, cmd))
  }

  ghost function After(s: State, actor: UserId, cmd: Command): State {
    if Verdict(s, actor, cmd).Done? then Effect(s, actor, cmd) else s
  }

  // ---------- runs ----------

  /** Beside commands, sheets are made, edited and transferred and notes edited, in ways custody must not mind. */
  datatype Step =
    | Do(actor: UserId, command: Command)
    | StartSheet(id: SheetId, holder: UserId, version: VersionId, state: SheetState)
    | EditSheet(id: SheetId, state: SheetState, archived: bool)
    | TransferSheet(id: SheetId, holder: UserId)
    | EditNote(id: ContentId, audience: ContentAudience, deleted: bool)

  predicate NewIds(s: State, cmd: Command) {
    match cmd
    case CreateCampaign(c, _) => c !in s.campaigns
    case IssueInvitation(_, id, _, hash, _, _) => id !in s.invitations && hash !in s.minted
    case RotateInvitation(_, _, hash, _, _, _) => hash !in s.minted
    case CreateContent(_, id, _, _) => id !in s.contents
    case CreateInCampaign(_, id, _, _, _, _, _) => id !in s.sheets
    case _ => true
  }

  predicate Enabled(s: State, step: Step) {
    match step
    case Do(_, cmd) => NewIds(s, cmd)
    case StartSheet(id, _, _, _) => id !in s.sheets
    case EditSheet(id, _, _) => id in s.sheets
    case TransferSheet(id, _) => id in s.sheets && s.sheets[id].campaign.None?
    case EditNote(id, _, _) => id in s.contents
  }

  ghost function Next(s: State, step: Step): State
    requires Enabled(s, step)
  {
    match step
    case Do(actor, cmd) => After(s, actor, cmd)
    case StartSheet(id, holder, version, state) =>
      s.(sheets := s.sheets[id := Sheet(Some(holder), None, None, version, 1, 1, state, false, map[], map[], [])])
    case EditSheet(id, state, archived) =>
      var sheet := s.sheets[id].(state := state, archived := archived, revision := s.sheets[id].revision + 1);
      s.(sheets := s.sheets[id := sheet])
    case TransferSheet(id, holder) =>
      s.(sheets := s.sheets[id := s.sheets[id].(owner := Some(holder), revision := s.sheets[id].revision + 1)])
    case EditNote(id, audience, deleted) =>
      var note := s.contents[id].(audience := audience, deleted := deleted, revision := s.contents[id].revision + 1);
      s.(contents := s.contents[id := note])
  }

  ghost predicate IsRun(s: State, steps: seq<Step>)
    decreases |steps|
  {
    |steps| > 0 ==> Enabled(s, steps[0]) && IsRun(Next(s, steps[0]), steps[1..])
  }

  ghost function Final(s: State, steps: seq<Step>): State
    requires IsRun(s, steps)
    decreases |steps|
  {
    if |steps| == 0 then s else Final(Next(s, steps[0]), steps[1..])
  }

  function Start(limits: Limits): State { State(limits, map[], map[], map[], map[], {}) }
}
