/** Who may change what, and which requests have become too old to commit, over whole runs. */
module CampaignAuthority {
  import opened Wrappers
  import opened Policy
  import opened CampaignRows
  import opened CampaignInvariants
  import opened CampaignRuns

  // ---------- the hierarchy ----------

  predicate IsOwnerOf(m: Option<Member>) { IsActive(m) && m.value.role == Owner }

  predicate IsCoGm(m: Option<Member>) { IsActive(m) && m.value.role == CoGm }

  predicate IsPlayer(m: Option<Member>) { IsActive(m) && m.value.role == Player }

  /** The removal rule without its order of cases: never the owner; oneself; by the owner; a player by a co-GM. */
  lemma RemovalPermittedIff(callerId: UserId, caller: Option<Member>, targetId: UserId, target: Option<Member>)
    ensures AuthorizeRemoval(callerId, caller, targetId, target).None? <==>
      IsActive(caller) && IsActive(target) && !IsOwnerOf(target) &&
      (callerId == targetId || IsOwnerOf(caller) || (IsCoGm(caller) && IsPlayer(target)))
  {
  }

  /** The role rule: the owner moves others between co-GM and player; a co-GM can only confirm a player as a player. */
  lemma RoleChangePermittedIff(caller: Option<Member>, target: Option<Member>, role: Role)
    ensures AuthorizeRoleChange(caller, target, role).None? <==>
      IsActive(target) && !IsOwnerOf(target) && role != Owner &&
      (IsOwnerOf(caller) || (IsCoGm(caller) && IsPlayer(target) && role == Player))
  {
  }

  function RowOf(s: State, c: CampaignId, u: UserId): Option<Member> { MemberOf(s.campaigns, c, u) }

  /** May `actor` bring about the change of `u`'s row from `a` to `b`? */
  predicate MayChange(actor: UserId, standing: Option<Member>, u: UserId, a: Option<Member>, b: Option<Member>) {
    // joining, leaving
    || actor == u
    // the owner removes others and moves them between co-GM and player
    || (IsOwnerOf(standing) && IsActive(a) && a.value.role != Owner && b.Some? && b.value.role != Owner)
    // a co-GM removes players, and neither makes nor unmakes a co-GM
    || (IsCoGm(standing) && IsPlayer(a) && b.Some? && b.value.role == Player)
  }

  lemma CommandRespectsHierarchy(s: State, actor: UserId, cmd: Command, u: UserId)
    requires !OnNote(cmd) && Verdict(s, actor, cmd).Done? && cmd.campaign in s.campaigns && NewIds(s, cmd)
    ensures var a, b := RowOf(s, cmd.campaign, u), Find(CampaignAfter(s, actor, cmd).members, u);
      a == b || MayChange(actor, RowOf(s, cmd.campaign, actor), u, a, b)
  {
    if cmd.RemoveMember? {
      RemovalPermittedIff(actor, RowOf(s, cmd.campaign, actor), cmd.target, RowOf(s, cmd.campaign, cmd.target));
    } else if cmd.ChangeRole? {
      RoleChangePermittedIff(RowOf(s, cmd.campaign, actor), RowOf(s, cmd.campaign, cmd.target), cmd.role);
    }
  }

  /** Whatever the step, a membership row changes only by someone entitled to that change. */
  lemma MembershipChangesAreAuthorized(s: State, step: Step, c: CampaignId, u: UserId)
    requires Enabled(s, step) && c in s.campaigns && RowOf(Next(s, step), c, u) != RowOf(s, c, u)
    ensures step.Do? && MayChange(step.actor, RowOf(s, c, step.actor), u, RowOf(s, c, u), RowOf(Next(s, step), c, u))
  {
    if step.Do? && Verdict(s, step.actor, step.command).Done? && !OnNote(step.command) && step.command.campaign == c {
      CommandRespectsHierarchy(s, step.actor, step.command, u);
    }
  }

  /** Invitations to become co-GM are made, rotated and revoked by the owner only. */
  lemma OnlyTheOwnerInvitesCoGms(s: State, step: Step, id: InvitationId)
    requires Enabled(s, step) && id in Next(s, step).invitations && Next(s, step).invitations[id].role == CoGm
    requires id in s.invitations ==> Next(s, step).invitations[id] != s.invitations[id]
    requires step.Do? &&
      (step.command.IssueInvitation? || step.command.RotateInvitation? || step.command.RevokeInvitation?)
    ensures IsOwnerOf(RowOf(s, Next(s, step).invitations[id].campaign, step.actor))
  {
  }

  // ---------- requests that have become too old ----------

  /** The campaign revision a command was sent against, if it names one. */
  function ExpectedRevision(cmd: Command): Option<nat> {
    match cmd
    case UpdateMetadata(_, e) => Some(e)
    case SetLifecycle(_, _, e) => Some(e)
    case ChangeRole(_, _, _, e) => Some(e)
    case RemoveMember(_, _, e) => Some(e)
    case IssueInvitation(_, _, _, _, _, e) => Some(e)
    case RotateInvitation(_, _, _, _, _, e) => Some(e)
    case RevokeInvitation(_, _, _, e) => Some(e)
    case CreateInCampaign(_, _, _, _, _, _, e) => Some(e)
    case AdoptSheet(_, _, _, e, _) => Some(e)
    case AssignControllers(_, _, _, _, _, e, _) => Some(e)
    case ClaimSheet(_, _, _, e, _) => Some(e)
    case _ => None
  }

  lemma CommitsAtExpectedRevision(s: State, actor: UserId, cmd: Command)
    requires Verdict(s, actor, cmd).Done? && ExpectedRevision(cmd).Some?
    ensures cmd.campaign in s.campaigns && s.campaigns[cmd.campaign].revision == ExpectedRevision(cmd).value
  {
  }

  /** Two commands sent against one campaign revision never both commit, if the first wrote the campaign. */
  lemma SecondCommandAtOneRevisionConflicts(s: State, first: Step, steps: seq<Step>, actor: UserId, second: Command)
    requires Enabled(s, first) && IsRun(Next(s, first), steps)
    requires first.Do? && ExpectedRevision(first.command).Some? && WritesCampaign(s, first, first.command.campaign)
    requires ExpectedRevision(second) == ExpectedRevision(first.command) && second.campaign == first.command.campaign
    ensures !Verdict(Final(Next(s, first), steps), actor, second).Done?
  {
    var c := second.campaign;
    CommitsAtExpectedRevision(s, first.actor, first.command);
    StepCountsCampaignWrites(s, first, c);
    CampaignRevisionCounts(Next(s, first), steps, c);
    if Verdict(Final(Next(s, first), steps), actor, second).Done? {
      CommitsAtExpectedRevision(Final(Next(s, first), steps), actor, second);
    }
  }

  /** Every write of the campaign row but a change of metadata moves the access revision. */
  ghost predicate WritesAccess(s: State, step: Step, c: CampaignId) {
    WritesCampaign(s, step, c) && !step.command.UpdateMetadata?
  }

  ghost function AccessWrites(s: State, steps: seq<Step>, c: CampaignId): nat
    requires IsRun(s, steps)
    decreases |steps|
  {
    if |steps| == 0 then 0
    else (if WritesAccess(s, steps[0], c) then 1 else 0) + AccessWrites(Next(s, steps[0]), steps[1..], c)
  }

  lemma StepCountsAccessWrites(s: State, step: Step, c: CampaignId)
    requires Enabled(s, step) && c in s.campaigns
    ensures c in Next(s, step).campaigns
    ensures Next(s, step).campaigns[c].accessRevision ==
      s.campaigns[c].accessRevision + if WritesAccess(s, step, c) then 1 else 0
  {
  }

  lemma {:induction false} AccessRevisionCounts(s: State, steps: seq<Step>, c: CampaignId)
    requires IsRun(s, steps) && c in s.campaigns
    ensures c in Final(s, steps).campaigns
    ensures Final(s, steps).campaigns[c].accessRevision == s.campaigns[c].accessRevision + AccessWrites(s, steps, c)
    decreases |steps|
  {
    if |steps| > 0 {
      StepCountsAccessWrites(s, steps[0], c);
      AccessRevisionCounts(Next(s, steps[0]), steps[1..], c);
    }
  }

  /**
   * An invitation reviewed at `s` can be accepted or declined only while nothing that bears on access, such as a
   * role, a member, another invitation or the lifecycle, has changed since.
   */
  lemma StaleReviewNeverCommits(s: State, steps: seq<Step>, c: CampaignId, actor: UserId, cmd: Command)
    requires IsRun(s, steps) && c in s.campaigns && AccessWrites(s, steps, c) > 0
    requires (cmd.AcceptInvitation? || cmd.DeclineInvitation?) && cmd.campaign == c &&
      cmd.accessRevision == s.campaigns[c].accessRevision
    ensures !Verdict(Final(s, steps), actor, cmd).Done?
  {
    AccessRevisionCounts(s, steps, c);
  }

  predicate IsPlacement(cmd: Command) {
    cmd.CreateInCampaign? || cmd.AdoptSheet? || cmd.AssignControllers? || cmd.ClaimSheet?
  }

  lemma PlacementNeedsItsGeneration(s: State, actor: UserId, cmd: Command)
    requires IsPlacement(cmd) && Verdict(s, actor, cmd).Done?
    ensures IsActive(RowOf(s, cmd.campaign, actor)) && RowOf(s, cmd.campaign, actor).value.generation == cmd.generation
  {
  }

  lemma GenerationsGrow(s: State, steps: seq<Step>, c: CampaignId, u: UserId)
    requires Inv(s) && IsRun(s, steps) && c in s.campaigns && u in s.campaigns[c].members
    ensures RowOf(Final(s, steps), c, u).Some? &&
      s.campaigns[c].members[u].generation <= RowOf(Final(s, steps), c, u).value.generation
  {
    RunMovesMembersOn(s, steps);
    var t := Final(s, steps);
    assert CampaignLater(s.campaigns[c], t.campaigns[c]);
    assert MemberLater(s.campaigns[c].members[u], t.campaigns[c].members[u]);
  }

  /** A placement authorized under a membership generation that has ended never commits, even after a rejoin. */
  lemma StalePlacementNeverCommits(s: State, steps: seq<Step>, c: CampaignId, u: UserId, cmd: Command)
    requires Inv(s) && IsRun(s, steps) && c in s.campaigns && u in s.campaigns[c].members
    requires IsPlacement(cmd) && cmd.campaign == c && cmd.generation < s.campaigns[c].members[u].generation
    ensures !Verdict(Final(s, steps), u, cmd).Done?
  {
    GenerationsGrow(s, steps, c, u);
    if Verdict(Final(s, steps), u, cmd).Done? {
      PlacementNeedsItsGeneration(Final(s, steps), u, cmd);
    }
  }

  // ---------- a designation is good for one claim ----------

  ghost predicate Undesignated(s: State, id: SheetId, u: UserId) { id in s.sheets && u !in s.sheets[id].designations }

  predicate Designates(step: Step, id: SheetId, u: UserId) {
    step.Do? && step.command.AssignControllers? && step.command.sheet == id && u in step.command.designees
  }

  lemma CommandKeepsUndesignated(s: State, actor: UserId, cmd: Command, id: SheetId, u: UserId)
    requires NewIds(s, cmd) && Verdict(s, actor, cmd).Done? && Undesignated(s, id, u) &&
      !Designates(Do(actor, cmd), id, u)
    ensures id in SheetsAfter(s, actor, cmd) && u !in SheetsAfter(s, actor, cmd)[id].designations
  {
  }

  lemma StepKeepsUndesignated(s: State, step: Step, id: SheetId, u: UserId)
    requires Enabled(s, step) && Undesignated(s, id, u) && !Designates(step, id, u)
    ensures Undesignated(Next(s, step), id, u)
  {
    if step.Do? && Verdict(s, step.actor, step.command).Done? {
      CommandKeepsUndesignated(s, step.actor, step.command, id, u);
    }
  }

  lemma {:induction false} RunKeepsUndesignated(s: State, steps: seq<Step>, id: SheetId, u: UserId)
    requires IsRun(s, steps) && Undesignated(s, id, u) && forall i :: 0 <= i < |steps| ==> !Designates(steps[i], id, u)
    ensures Undesignated(Final(s, steps), id, u)
    decreases |steps|
  {
    if |steps| > 0 {
      StepKeepsUndesignated(s, steps[0], id, u);
      forall i | 0 <= i < |steps[1..]| ensures !Designates(steps[1..][i], id, u) {
        assert steps[1..][i] == steps[i + 1];
      }
      RunKeepsUndesignated(Next(s, steps[0]), steps[1..], id, u);
    }
  }

  /** Until designated anew, a member who has claimed a sheet cannot claim it again. */
  lemma ClaimUsesUpTheDesignation(s: State, u: UserId, claim: Command, steps: seq<Step>, again: Command)
    requires claim.ClaimSheet? && Verdict(s, u, claim).Done? && IsRun(Effect(s, u, claim), steps)
    requires forall i :: 0 <= i < |steps| ==> !Designates(steps[i], claim.sheet, u)
    requires again.ClaimSheet? && again.sheet == claim.sheet
    ensures !Verdict(Final(Effect(s, u, claim), steps), u, again).Done?
  {
    RunKeepsUndesignated(Effect(s, u, claim), steps, claim.sheet, u);
  }
}
