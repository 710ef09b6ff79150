/** What a granted campaign command leaves behind, row by row and field by field, and where roles come from. */
module CampaignEffects {
  import opened Wrappers
  import opened Policy
  import opened CampaignRows
  import opened CampaignInvariants
  import opened CampaignRuns

  function RowOf(s: State, c: CampaignId, u: UserId): Option<Member> {
    if c in s.campaigns && u in s.campaigns[c].members then Some(s.campaigns[c].members[u]) else None
  }

  ghost predicate Granted(s: State, step: Step) { step.Do? && Verdict(s, step.actor, step.command).Done? }

  // ---------- membership rows ----------

  /** The invitation with the token offers this role. */
  predicate Offers(s: State, hash: TokenHash, role: Role) {
    exists i :: i in s.invitations && s.invitations[i].hash == hash && s.invitations[i].role == role
  }

  /** The row is now this one: joining and leaving each begin another generation. */
  predicate IsNow(b: Option<Member>, a: Option<Member>, role: Role, status: Status) {
    && b.Some? && b.value.role == role && b.value.status == status
    && (a.None? ==> status == Active && b.value.generation == 1)
    && (a.Some? ==> b.value.generation == a.value.generation + if a.value.status == status then 0 else 1)
  }

  /** What a granted command makes of user `u`'s row in its campaign. */
  ghost predicate MemberMoves(s: State, actor: UserId, cmd: Command, u: UserId, a: Option<Member>, b: Option<Member>) {
    match cmd
    case CreateCampaign(_, _) => if u == actor then IsNow(b, None, Owner, Active) else b.None?
    case ChangeRole(_, target, role, _) =>
      if u == target then a.Some? && IsNow(b, a, role, a.value.status) else b == a
    case RemoveMember(_, target, _) =>
      if u == target then a.Some? && IsNow(b, a, a.value.role, Removed) else b == a
    case AcceptInvitation(_, hash, _, _, _) =>
      if u == actor then b.Some? && Offers(s, hash, b.value.role) && IsNow(b, a, b.value.role, Active) else b == a
    case _ => b == a
  }

  lemma CommandMovesMembers(s: State, actor: UserId, cmd: Command, u: UserId)
    requires NewIds(s, cmd) && Verdict(s, actor, cmd).Done? && !OnNote(cmd)
    ensures MemberMoves(s, actor, cmd, u, RowOf(s, cmd.campaign, u), Find(CampaignAfter(s, actor, cmd).members, u))
  {
  }

  lemma OtherCampaignsStay(s: State, step: Step, c: CampaignId)
    requires Enabled(s, step)
    requires Granted(s, step) && !OnNote(step.command) ==> step.command.campaign != c
    ensures c in Next(s, step).campaigns <==> c in s.campaigns
    ensures c in s.campaigns ==> Next(s, step).campaigns[c] == s.campaigns[c]
  {
  }

  /** Over all steps: a granted command moves the rows of its campaign just so, and nothing else moves any. */
  lemma MembershipRowsMove(s: State, step: Step, c: CampaignId, u: UserId)
    requires Enabled(s, step)
    ensures var a, b := RowOf(s, c, u), RowOf(Next(s, step), c, u);
      if Granted(s, step) && !OnNote(step.command) && step.command.campaign == c
      then MemberMoves(s, step.actor, step.command, u, a, b)
      else b == a
  {
    if Granted(s, step) && !OnNote(step.command) && step.command.campaign == c {
      CommandMovesMembers(s, step.actor, step.command, u);
    } else {
      OtherCampaignsStay(s, step, c);
    }
  }

  /** So a role changes only by a change of role or an acceptance, and to the role that was named or offered. */
  lemma RolesComeFromCommands(s: State, step: Step, c: CampaignId, u: UserId)
    requires Enabled(s, step) && c in s.campaigns && RowOf(Next(s, step), c, u).Some?
    requires RowOf(s, c, u).None? || RowOf(s, c, u).value.role != RowOf(Next(s, step), c, u).value.role
    ensures Granted(s, step)
    ensures var role := RowOf(Next(s, step), c, u).value.role;
      || (step.command.ChangeRole? && step.command.campaign == c && step.command.target == u &&
          step.command.role == role)
      || (step.command.AcceptInvitation? && step.command.campaign == c && step.actor == u &&
          Offers(s, step.command.hash, role))
  {
    MembershipRowsMove(s, step, c, u);
  }

  lemma AcceptanceGivesTheRoleOffered(s: State, actor: UserId, acceptance: Command, id: InvitationId)
    requires UniqueHashes(s.invitations) && acceptance.AcceptInvitation? && Verdict(s, actor, acceptance).Done?
    requires id in s.invitations && s.invitations[id].hash == acceptance.hash
    ensures acceptance.campaign == s.invitations[id].campaign
    ensures var row := RowOf(After(s, actor, acceptance), acceptance.campaign, actor);
      row.Some? && row.value.role == s.invitations[id].role && row.value.status == Active
  {
    assert WithHash(s.invitations, acceptance.hash) == id;
    CommandMovesMembers(s, actor, acceptance, actor);
  }

  /**
   * From the moment an invitation is issued, whatever happens to it and its token until it is accepted: whoever
   * accepts it is then an active member with the role it was issued with.
   */
  lemma AcceptanceGivesTheRoleIssued(s: State, issuer: UserId, issue: Command, steps: seq<Step>, actor: UserId,
      acceptance: Command)
    requires Inv(s) && issue.IssueInvitation? && NewIds(s, issue) && Verdict(s, issuer, issue).Done?
    requires IsRun(Effect(s, issuer, issue), steps)
    requires acceptance.AcceptInvitation? && Verdict(Final(Effect(s, issuer, issue), steps), actor, acceptance).Done?
    requires var t := Final(Effect(s, issuer, issue), steps);
      issue.invitation in t.invitations && t.invitations[issue.invitation].hash == acceptance.hash
    ensures var t := Final(Effect(s, issuer, issue), steps);
      var row := RowOf(After(t, actor, acceptance), issue.campaign, actor);
      acceptance.campaign == issue.campaign && row.Some? && row.value.role == issue.role && row.value.status == Active
  {
    var issued := Effect(s, issuer, issue);
    CommandKeepsInv(s, issuer, issue);
    RunKeepsInv(issued, steps);
    RunMovesInvitationsOn(issued, steps);
    assert InvitationLater(issued.invitations[issue.invitation], Final(issued, steps).invitations[issue.invitation]);
    AcceptanceGivesTheRoleOffered(Final(issued, steps), actor, acceptance, issue.invitation);
  }

  // ---------- campaign rows ----------

  /** A campaign keeps its pinned version for good, and is opened and closed by its lifecycle commands alone. */
  lemma CampaignRowsMove(s: State, step: Step, c: CampaignId)
    requires Enabled(s, step) && c in Next(s, step).campaigns
    ensures var b := Next(s, step).campaigns[c];
      if c !in s.campaigns
      then Granted(s, step) && step.command.CreateCampaign? && step.command.campaign == c &&
        b.version == step.command.version && b.active && b.revision == 1 && b.accessRevision == 1
      else
        && b.version == s.campaigns[c].version
        && b.active == (if Granted(s, step) && step.command.SetLifecycle? && step.command.campaign == c
                        then step.command.active else s.campaigns[c].active)
  {
    if !(Granted(s, step) && !OnNote(step.command) && step.command.campaign == c) {
      OtherCampaignsStay(s, step, c);
    }
  }

  // ---------- invitation rows ----------

  /** Everything an invitation says but who used it up and with which token. */
  predicate SameOffer(a: Invitation, b: Invitation) { b.campaign == a.campaign && b.role == a.role }

  predicate UsedUp(a: Invitation, b: Invitation, status: InvitationStatus, consumer: Option<UserId>,
      generation: Option<nat>) {
    && SameOffer(a, b) && b.hash == a.hash && b.expires == a.expires && b.status == status
    && b.consumer == consumer && b.acceptedGeneration == generation && b.revision == a.revision + 1
  }

  /** Row `b` is what a granted command makes of invitation `a`. */
  ghost predicate InvitationMoves(s: State, actor: UserId, cmd: Command, id: InvitationId, a: Invitation, b: Invitation)
    requires Verdict(s, actor, cmd).Done?
  {
    match cmd
    case AcceptInvitation(c, hash, _, _, _) =>
      if a.hash == hash then
        var row := Find(CampaignAfter(s, actor, cmd).members, actor);
        row.Some? && UsedUp(a, b, Accepted, Some(actor), Some(row.value.generation))
      else b == a
    case DeclineInvitation(_, hash, _, _, _) =>
      if a.hash == hash then UsedUp(a, b, Declined, Some(actor), None) else b == a
    case RotateInvitation(_, k, hash, expires, _, _) =>
      if k == id then
        SameOffer(a, b) && b.hash == hash && b.expires == expires && b.status == a.status && b.consumer == a.consumer &&
        b.acceptedGeneration == a.acceptedGeneration && b.revision == a.revision + 1
      else b == a
    case RevokeInvitation(_, k, _, _) =>
      if k == id && a.status == Pending then UsedUp(a, b, Revoked, a.consumer, a.acceptedGeneration) else b == a
    case _ => b == a
  }

  predicate NewInvitation(cmd: Command, b: Invitation)
    requires cmd.IssueInvitation?
  {
    && b.campaign == cmd.campaign && b.role == cmd.role && b.hash == cmd.hash && b.expires == cmd.expires
    && b.status == Pending && b.revision == 1 && b.consumer.None? && b.acceptedGeneration.None?
  }

  lemma InvitationRowsMove(s: State, step: Step, id: InvitationId)
    requires UniqueHashes(s.invitations) && Enabled(s, step)
    ensures id in s.invitations ==> id in Next(s, step).invitations
    ensures id in Next(s, step).invitations ==>
      var b := Next(s, step).invitations[id];
      if id !in s.invitations
      then Granted(s, step) && step.command.IssueInvitation? && step.command.invitation == id &&
        NewInvitation(step.command, b)
      else if Granted(s, step) then InvitationMoves(s, step.actor, step.command, id, s.invitations[id], b)
      else b == s.invitations[id]
  {
    if Granted(s, step) && ByToken(step.command) && id in s.invitations &&
      s.invitations[id].hash == step.command.hash {
      assert WithHash(s.invitations, step.command.hash) == id;
    }
  }

  // ---------- notes ----------

  /** What a granted command makes of note `a`: removal takes the member's grant, and only a replacement adds any. */
  ghost predicate NoteMoves(cmd: Command, id: ContentId, a: Content, b: Content) {
    && b.campaign == a.campaign && b.creator == a.creator && b.audience == a.audience && b.deleted == a.deleted
    && match cmd
       case RemoveMember(c, target, _) =>
         b.revision == a.revision &&
         forall u :: u in b.grants <==> u in a.grants && (a.campaign == c ==> u != target)
       case ReplaceGrants(k, grants, _) =>
         if k == id then b.grants == grants && b.revision == a.revision + 1 else b == a
       case _ => b == a
  }

  ghost predicate NewNoteOf(s: State, actor: UserId, cmd: Command, b: Content)
    requires cmd.CreateContent?
  {
    var row := RowOf(s, cmd.campaign, actor);
    && b.campaign == cmd.campaign && b.creator == actor && !b.deleted && b.grants == cmd.grants
    && b.revision == (if cmd.grants == {} then 1 else 2)
    && (cmd.audience.Some? ==> b.audience == cmd.audience.value)
    && (cmd.audience.None? && row.Some? ==>
         b.audience == if row.value.role == Player then OwnerOnlyNote else GmOnlyNote)
  }

  lemma NoteRowsMove(s: State, step: Step, id: ContentId)
    requires Enabled(s, step) && step.Do?
    ensures id in s.contents ==> id in Next(s, step).contents
    ensures id in Next(s, step).contents ==>
      var b := Next(s, step).contents[id];
      if id !in s.contents
      then Granted(s, step) && step.command.CreateContent? && step.command.content == id &&
        NewNoteOf(s, step.actor, step.command, b)
      else if Granted(s, step) then NoteMoves(step.command, id, s.contents[id], b)
      else b == s.contents[id]
  {
  }

  // ---------- sheets ----------

  /** Nothing but who controls the sheet and who may claim it differs. */
  predicate SameSheet(a: Sheet, b: Sheet) {
    && b.owner == a.owner && b.campaign == a.campaign && b.returnOwner == a.returnOwner && b.version == a.version
    && b.revision == a.revision && b.generation == a.generation && b.state == a.state && b.archived == a.archived
    && b.placements == a.placements
  }

  /** User `u` is a controller of `b` too, and nobody else became or ceased to be one. */
  ghost predicate ControlGainedBy(a: Sheet, b: Sheet, u: UserId, c: CampaignId) {
    && (forall v :: v in b.controllers <==> v in a.controllers || v == u)
    && (forall v :: v in a.controllers ==> b.controllers[v] == a.controllers[v])
    && (u !in a.controllers ==> b.controllers[u] == c)
  }

  /** The campaign takes the sheet over as it is, and remembers whom to give it back to. */
  ghost predicate TakenOver(a: Sheet, b: Sheet, c: CampaignId, u: UserId) {
    && b.owner.None? && b.campaign == Some(c) && b.returnOwner == Some(u) && b.version == a.version
    && b.state == a.state && b.archived == a.archived && b.designations == a.designations
    && b.revision == a.revision + 1 && b.generation == a.generation + 1 && ControlGainedBy(a, b, u, c)
    && |b.placements| == |a.placements| + 1 && b.placements[..|a.placements|] == a.placements
    && b.placements[|a.placements|] == Placement(b.generation, c, Some(u), false)
  }

  /** The controllers are those named; designees join those who may claim it already, on the actor's word. */
  ghost predicate HandedOut(a: Sheet, b: Sheet, cmd: Command, actor: UserId)
    requires cmd.AssignControllers?
  {
    && SameSheet(a, b)
    && (forall u :: u in b.controllers <==> u in cmd.users)
    && (forall u :: u in b.controllers ==> b.controllers[u] == cmd.campaign)
    && (forall u :: u in b.designations <==> u in a.designations || u in cmd.designees)
    && (forall u :: u in b.designations ==>
         b.designations[u] == if u in cmd.designees then Designation(cmd.campaign, actor) else a.designations[u])
  }

  ghost predicate ClaimedBy(a: Sheet, b: Sheet, c: CampaignId, u: UserId) {
    && SameSheet(a, b) && ControlGainedBy(a, b, u, c)
    && (forall v :: v in b.designations <==> v in a.designations && v != u)
    && (forall v :: v in b.designations ==> b.designations[v] == a.designations[v])
  }

  /** Row `b` is what a granted placement makes of sheet `a`. */
  ghost predicate SheetMoves(actor: UserId, cmd: Command, id: SheetId, a: Sheet, b: Sheet) {
    match cmd
    case AdoptSheet(c, k, _, _, _) => if k == id then TakenOver(a, b, c, actor) else b == a
    case AssignControllers(_, k, _, _, _, _, _) => if k == id then HandedOut(a, b, cmd, actor) else b == a
    case ClaimSheet(c, k, _, _, _) => if k == id then ClaimedBy(a, b, c, actor) else b == a
    case _ => b == a
  }

  /** A manager's new sheet has the controllers asked for, a player's has the player. */
  ghost predicate NewSheetOf(s: State, actor: UserId, cmd: Command, b: Sheet)
    requires cmd.CreateInCampaign?
  {
    var c := cmd.campaign;
    && b.owner.None? && b.campaign == Some(c) && b.returnOwner.None? && b.version == cmd.version
    && b.state == cmd.state && !b.archived && b.revision == 1 && b.generation == 1 && b.designations == map[]
    && b.placements == [Placement(1, c, None, false)]
    && RowOf(s, c, actor).Some?
    && (forall u :: u in b.controllers <==>
         if RowOf(s, c, actor).value.role == Player then u == actor
         else cmd.requested.Some? && u in cmd.requested.value)
    && (forall u :: u in b.controllers ==> b.controllers[u] == c)
  }

  lemma CommandMovesSheets(s: State, actor: UserId, cmd: Command, id: SheetId)
    requires NewIds(s, cmd) && Verdict(s, actor, cmd).Done? && !cmd.RemoveMember?
    ensures id in s.sheets ==> id in SheetsAfter(s, actor, cmd)
    ensures id in SheetsAfter(s, actor, cmd) ==>
      var b := SheetsAfter(s, actor, cmd)[id];
      if id in s.sheets then SheetMoves(actor, cmd, id, s.sheets[id], b)
      else cmd.CreateInCampaign? && cmd.sheet == id && NewSheetOf(s, actor, cmd, b)
  {
  }

  /** What a removal does to sheets is `RemovalReturnsExactly`; of the other commands only placements move any. */
  lemma SheetRowsMove(s: State, actor: UserId, cmd: Command, id: SheetId)
    requires NewIds(s, cmd) && !cmd.RemoveMember?
    ensures id in s.sheets ==> id in After(s, actor, cmd).sheets
    ensures id in After(s, actor, cmd).sheets ==>
      var b := After(s, actor, cmd).sheets[id];
      if id !in s.sheets
      then Verdict(s, actor, cmd).Done? && cmd.CreateInCampaign? && cmd.sheet == id && NewSheetOf(s, actor, cmd, b)
      else if Verdict(s, actor, cmd).Done? then SheetMoves(actor, cmd, id, s.sheets[id], b)
      else b == s.sheets[id]
  {
    if Verdict(s, actor, cmd).Done? {
      CommandMovesSheets(s, actor, cmd, id);
    }
  }
}
