/**
 * The campaign commands as the source runs them: rows are locked, checked and then written one statement at a
 * time. Most refusals commit their transaction, so a write made before a late refusal would stay. The
 * contracts say none does: each method's state is its specification's, refused or not.
 */
module CampaignStore {
  import opened Wrappers
  import opened Policy
  import opened CampaignRows

  lemma OneMore(users: seq<UserId>, i: nat)
    requires i < |users|
    ensures AsSet(users[..i + 1]) == AsSet(users[..i]) + {users[i]}
  {
    assert users[..i + 1] == users[..i] + [users[i]];
  }

  lemma WholeSet(users: seq<UserId>)
    ensures AsSet(users[..|users|]) == AsSet(users)
  {
    assert users[..|users|] == users;
  }

  /** Under unique hashes the row that still has the token's hash is the one the specification means. */
  lemma LocatedIsTheOne(s: State, actor: UserId, cmd: Command, id: InvitationId)
    requires ByToken(cmd) && UniqueHashes(s.invitations) && LockedVerdict(s, actor, cmd, Some(id)).Done?
    ensures Verdict(s, actor, cmd).Done? && WithHash(s.invitations, cmd.hash) == id
  {
    assert s.invitations[id].hash == cmd.hash;
    assert HashInUse(s.invitations, cmd.hash);
  }

  class Store {
    const limits: Limits
    var campaigns: map<CampaignId, Campaign>
    var invitations: map<InvitationId, Invitation>
    var contents: map<ContentId, Content>
    var sheets: map<SheetId, Sheet>
    ghost var minted: set<TokenHash>

    ghost function View(): State reads this { State(limits, campaigns, invitations, contents, sheets, minted) }

    constructor (limits: Limits)
      ensures View() == Start(limits)
    {
      this.limits := limits;
      campaigns, invitations, contents, sheets, minted := map[], map[], map[], map[], {};
    }

    // ---------- guarded statements ----------

    method BumpCampaign(c: CampaignId, expected: nat) returns (updated: bool)
      modifies this`campaigns
      ensures updated == (c in old(campaigns) && old(campaigns)[c].revision == expected)
      ensures campaigns == if updated then old(campaigns)[c := Bumped(old(campaigns)[c])] else old(campaigns)
    {
      if c !in campaigns || campaigns[c].revision != expected { return false; }
      var row := campaigns[c];
      campaigns := campaigns[c := row.(revision := row.revision + 1, accessRevision := row.accessRevision + 1)];
      return true;
    }

    /** Absent fields keep their value; a row written as removed starts a new generation. */
    method UpdateMembership(c: CampaignId, u: UserId, role: Option<Role>, status: Option<Status>)
        returns (row: Option<Member>)
      modifies this`campaigns
      ensures row.Some? <==> c in old(campaigns) && u in old(campaigns)[c].members
      ensures row.Some? ==> var m := old(campaigns)[c].members[u];
        row.value.role == (if role.Some? then role.value else m.role) &&
        row.value.status == (if status.Some? then status.value else m.status) &&
        row.value.generation == m.generation + (if row.value.status == Removed then 1 else 0)
      ensures campaigns ==
        if row.Some? then old(campaigns)[c := WithMember(old(campaigns)[c], u, row.value)] else old(campaigns)
    {
      if c !in campaigns || u !in campaigns[c].members { return None; }
      var m := campaigns[c].members[u];
      var newStatus := if status.Some? then status.value else m.status;
      row := Some(Member(
        if role.Some? then role.value else m.role,
        newStatus,
        if newStatus == Removed then m.generation + 1 else m.generation));
      campaigns := campaigns[c := campaigns[c].(members := campaigns[c].members[u := row.value])];
    }

    method UpsertMembershipForAccept(c: CampaignId, u: UserId, role: Role) returns (row: Member)
      requires c in campaigns && !ActiveIn(campaigns[c], u)
      modifies this`campaigns
      ensures row == Joined(Find(old(campaigns)[c].members, u), role)
      ensures campaigns == old(campaigns)[c := WithMember(old(campaigns)[c], u, row)]
    {
      if u in campaigns[c].members && campaigns[c].members[u].status == Removed {
        row := Member(role, Active, campaigns[c].members[u].generation + 1);
      } else {
        row := Member(role, Active, 1);
      }
      campaigns := campaigns[c := campaigns[c].(members := campaigns[c].members[u := row])];
    }

    method FindInvitationByHash(hash: TokenHash) returns (found: Option<InvitationId>)
      requires UniqueHashes(invitations)
      ensures found == if HashInUse(invitations, hash) then Some(WithHash(invitations, hash)) else None
    {
      found := None;
      var ids := invitations.Keys;
      while ids != {} && found.None?
        invariant ids <= invitations.Keys
        invariant found.None? ==> forall i :: i in invitations && i !in ids ==> invitations[i].hash != hash
        invariant found.Some? ==> found.value in invitations && invitations[found.value].hash == hash
        decreases |ids|
      {
        var id :| id in ids;
        ids := ids - {id};
        if invitations[id].hash == hash {
          found := Some(id);
        }
      }
    }

    method ConsumeInvitation(id: InvitationId, status: InvitationStatus, actor: UserId, generation: Option<nat>,
        expected: nat) returns (updated: bool)
      modifies this`invitations
      ensures updated == (id in old(invitations) && old(invitations)[id].revision == expected)
      ensures invitations ==
        if updated then old(invitations)[id := Consumed(old(invitations)[id], status, actor, generation)]
        else old(invitations)
    {
      if id !in invitations || invitations[id].revision != expected { return false; }
      var row := invitations[id];
      invitations := invitations[id :=
        row.(status := status, consumer := Some(actor), acceptedGeneration := generation,
          revision := row.revision + 1)];
      return true;
    }

    method RotateToken(id: InvitationId, hash: TokenHash, expires: int, expected: nat) returns (updated: bool)
      modifies this`invitations, this`minted
      ensures updated == (id in old(invitations) && old(invitations)[id].revision == expected)
      ensures invitations ==
        if updated then old(invitations)[id := Rotated(old(invitations)[id], hash, expires)] else old(invitations)
      ensures minted == if updated then old(minted) + {hash} else old(minted)
    {
      if id !in invitations || invitations[id].revision != expected { return false; }
      var row := invitations[id];
      invitations := invitations[id := row.(hash := hash, expires := expires, revision := row.revision + 1)];
      minted := minted + {hash};
      return true;
    }

    method RevokePending(id: InvitationId, expected: nat) returns (updated: bool)
      modifies this`invitations
      ensures updated ==
        (id in old(invitations) && old(invitations)[id].revision == expected && old(invitations)[id].status == Pending)
      ensures invitations ==
        if updated then old(invitations)[id := RevokedInvitation(old(invitations)[id])] else old(invitations)
    {
      if id !in invitations || invitations[id].revision != expected { return false; }
      if invitations[id].status != Pending { return false; }
      invitations := invitations[id := invitations[id].(status := Revoked, revision := invitations[id].revision + 1)];
      return true;
    }

    /** Clears, inserts one by one, and only then checks the revision: a refusal here would leave the new grants. */
    method ReplaceContentGrants(id: ContentId, users: set<UserId>, expected: nat) returns (updated: bool)
      requires id in contents
      modifies this`contents
      ensures updated == (old(contents)[id].revision == expected)
      ensures contents == old(contents)[id := old(contents)[id].(
        grants := users, revision := old(contents)[id].revision + if updated then 1 else 0)]
    {
      ghost var before := contents;
      contents := contents[id := contents[id].(grants := {})];
      var rest := users;
      assert users - rest == {};
      while rest != {}
        invariant rest <= users
        invariant contents.Keys == before.Keys && contents[id] == before[id].(grants := users - rest)
        invariant forall k {:trigger contents[k]} :: k in contents && k != id ==> contents[k] == before[k]
        decreases |rest|
      {
        var u :| u in rest;
        assert users - (rest - {u}) == (users - rest) + {u};
        rest := rest - {u};
        contents := contents[id := contents[id].(grants := contents[id].grants + {u})];
      }
      assert users - {} == users;
      assert contents == before[id := before[id].(grants := users)];
      if contents[id].revision != expected { return false; }
      contents := contents[id := contents[id].(revision := contents[id].revision + 1)];
      return true;
    }

    method DeleteContentGrantsForMember(c: CampaignId, u: UserId)
      modifies this`contents
      ensures contents == map k | k in old(contents) :: Revoking(old(contents)[k], c, u)
    {
      var rest := contents.Keys;
      while rest != {}
        invariant rest <= contents.Keys == old(contents).Keys
        invariant forall k {:trigger contents[k]} :: k in contents ==>
          contents[k] == if k in rest then old(contents)[k] else Revoking(old(contents)[k], c, u)
        decreases |rest|
      {
        var k :| k in rest;
        rest := rest - {k};
        if contents[k].campaign == c {
          contents := contents[k := contents[k].(grants := contents[k].grants - {u})];
        }
      }
    }

    // ---------- the member's sheets ----------

    method DetachSheet(k: SheetId)
      requires k in sheets
      modifies this`sheets
      ensures sheets == old(sheets)[k := Returned(old(sheets)[k])]
    {
      var row := sheets[k];
      sheets := sheets[k := row.(owner := row.returnOwner, campaign := None, returnOwner := None,
        revision := row.revision + 1, generation := row.generation + 1)];
      sheets := sheets[k := sheets[k].(controllers := map[])];
      sheets := sheets[k := sheets[k].(designations := map[])];
      sheets := sheets[k := sheets[k].(placements := Ended(sheets[k].placements))];
    }

    method ReturnAdopted(c: CampaignId, u: UserId)
      modifies this`sheets
      ensures sheets.Keys == old(sheets).Keys
      ensures forall k {:trigger sheets[k]} :: k in sheets ==>
        sheets[k] ==
          if old(sheets)[k].campaign == Some(c) && old(sheets)[k].returnOwner == Some(u) then Returned(old(sheets)[k])
          else old(sheets)[k]
    {
      var adopted := set k | k in sheets && sheets[k].campaign == Some(c) && sheets[k].returnOwner == Some(u);
      while adopted != {}
        invariant sheets.Keys == old(sheets).Keys && adopted <= sheets.Keys
        invariant forall k {:trigger sheets[k]} {:trigger k in adopted} :: k in sheets ==>
          (k in adopted ==> old(sheets)[k].campaign == Some(c) && old(sheets)[k].returnOwner == Some(u)) &&
          sheets[k] == if old(sheets)[k].campaign == Some(c) && old(sheets)[k].returnOwner == Some(u) && k !in adopted
                       then Returned(old(sheets)[k]) else old(sheets)[k]
        decreases |adopted|
      {
        var k :| k in adopted;
        adopted := adopted - {k};
        DetachSheet(k);
      }
    }

    /** The two bulk deletes: the member's controller rows, then designations of or by the member. */
    method ReleaseMember(c: CampaignId, u: UserId)
      modifies this`sheets
      ensures sheets.Keys == old(sheets).Keys
      ensures forall k {:trigger sheets[k]} :: k in sheets ==> sheets[k] == WithoutMember(old(sheets)[k], c, u)
    {
      var rest := sheets.Keys;
      while rest != {}
        invariant rest <= sheets.Keys == old(sheets).Keys
        invariant forall k {:trigger sheets[k]} :: k in sheets ==>
          sheets[k] == if k in rest then old(sheets)[k] else WithoutMember(old(sheets)[k], c, u)
        decreases |rest|
      {
        var k :| k in rest;
        rest := rest - {k};
        var row := sheets[k];
        var controllers := map v | v in row.controllers && !(v == u && row.controllers[v] == c) :: row.controllers[v];
        var designations :=
          map v | v in row.designations &&
                  !(row.designations[v].campaign == c && (v == u || row.designations[v].designator == u))
                :: row.designations[v];
        assert controllers == WithoutMember(row, c, u).controllers &&
          designations == WithoutMember(row, c, u).designations;
        sheets := sheets[k := row.(controllers := controllers, designations := designations)];
      }
    }

    lemma NothingLeftToRelease(sheet: Sheet, c: CampaignId, u: UserId)
      ensures WithoutMember(Returned(sheet), c, u) == Returned(sheet)
    {
      assert WithoutMember(Returned(sheet), c, u).controllers == map[];
      assert WithoutMember(Returned(sheet), c, u).designations == map[];
    }

    method ReturnForMember(c: CampaignId, u: UserId)
      modifies this`sheets
      ensures sheets == map k | k in old(sheets) :: Released(old(sheets)[k], c, u)
    {
      ghost var before := sheets;
      ReturnAdopted(c, u);
      ReleaseMember(c, u);
      forall k | k in before ensures k in sheets && sheets[k] == Released(before[k], c, u) {
        NothingLeftToRelease(before[k], c, u);
      }
    }

    // ---------- campaign and membership commands ----------

    method DoCreateCampaign(actor: UserId, c: CampaignId, version: VersionId) returns (outcome: Outcome)
      modifies this
      ensures outcome == Verdict(old(View()), actor, CreateCampaign(c, version))
      ensures View() == After(old(View()), actor, CreateCampaign(c, version))
    {
      campaigns := campaigns[c := Campaign(true, version, 1, 1, map[])];
      campaigns := campaigns[c := campaigns[c].(members := map[actor := Member(Owner, Active, 1)])];
      return Done;
    }

    method DoUpdateMetadata(actor: UserId, c: CampaignId, expected: nat) returns (outcome: Outcome)
      modifies this
      ensures outcome == Verdict(old(View()), actor, UpdateMetadata(c, expected))
      ensures View() == After(old(View()), actor, UpdateMetadata(c, expected))
    {
      var m := MemberOf(campaigns, c, actor);
      if !IsActive(m) { return NotFound; }
      if !campaigns[c].active { return Conflict; }
      if !IsGameMaster(m) { return NotFound; }
      if campaigns[c].revision != expected { return Conflict; }
      campaigns := campaigns[c := campaigns[c].(revision := campaigns[c].revision + 1)];
      return Done;
    }

    method DoSetLifecycle(actor: UserId, c: CampaignId, active: bool, expected: nat) returns (outcome: Outcome)
      modifies this
      ensures outcome == Verdict(old(View()), actor, SetLifecycle(c, active, expected))
      ensures View() == After(old(View()), actor, SetLifecycle(c, active, expected))
    {
      var m := MemberOf(campaigns, c, actor);
      if !IsActive(m) || !IsGameMaster(m) { return NotFound; }
      if campaigns[c].active == active { return Conflict; }
      if campaigns[c].revision != expected { return Conflict; }
      var row := campaigns[c];
      campaigns :=
        campaigns[c := row.(active := active, revision := row.revision + 1, accessRevision := row.accessRevision + 1)];
      return Done;
    }

    method DoChangeRole(actor: UserId, c: CampaignId, target: UserId, role: Role, expected: nat)
        returns (outcome: Outcome)
      modifies this
      ensures outcome == Verdict(old(View()), actor, ChangeRole(c, target, role, expected))
      ensures View() == After(old(View()), actor, ChangeRole(c, target, role, expected))
    {
      var caller := MemberOf(campaigns, c, actor);
      if !IsActive(caller) { return NotFound; }
      if !campaigns[c].active { return Conflict; }
      var denial := AuthorizeRoleChange(caller, MemberOf(campaigns, c, target), role);
      if denial.Some? { return DenialOutcome(denial.value); }
      if campaigns[c].revision != expected { return Conflict; }
      var bumped := BumpCampaign(c, expected);
      if !bumped { return Conflict; }
      var updated := UpdateMembership(c, target, Some(role), None);
      if updated.None? { return NotFound; }
      return Done;
    }

    method DoRemoveMember(actor: UserId, c: CampaignId, target: UserId, expected: nat) returns (outcome: Outcome)
      modifies this
      ensures outcome == Verdict(old(View()), actor, RemoveMember(c, target, expected))
      ensures View() == After(old(View()), actor, RemoveMember(c, target, expected))
    {
      var caller := MemberOf(campaigns, c, actor);
      if !IsActive(caller) { return NotFound; }
      var denial := AuthorizeRemoval(actor, caller, target, MemberOf(campaigns, c, target));
      if denial.Some? { return DenialOutcome(denial.value); }
      if campaigns[c].revision != expected { return Conflict; }
      var bumped := BumpCampaign(c, expected);
      if !bumped { return Conflict; }
      var updated := UpdateMembership(c, target, None, Some(Removed));
      if updated.None? { return NotFound; }
      DeleteContentGrantsForMember(c, target);
      ReturnForMember(c, target);
      return Done;
    }

    // ---------- invitation commands ----------

    method DoIssue(actor: UserId, c: CampaignId, id: InvitationId, role: Role, hash: TokenHash, expires: int,
        expected: nat) returns (outcome: Outcome)
      modifies this
      ensures outcome == Verdict(old(View()), actor, IssueInvitation(c, id, role, hash, expires, expected))
      ensures View() == After(old(View()), actor, IssueInvitation(c, id, role, hash, expires, expected))
    {
      if role == Owner { return BadRequest; }
      var m := MemberOf(campaigns, c, actor);
      if !IsActive(m) || !IsGameMaster(m) { return NotFound; }
      if !campaigns[c].active { return Conflict; }
      if role == CoGm && m.value.role != Owner { return NotFound; }
      if campaigns[c].revision != expected { return Conflict; }
      invitations := invitations[id := Invitation(c, role, hash, expires, Pending, 1, None, None)];
      minted := minted + {hash};
      var bumped := BumpCampaign(c, expected);
      if !bumped { return Conflict; }
      return Done;
    }

    /** Before any lock: the row may have changed by the time the locks are held. */
    method LookUpInvitation(c: CampaignId, hash: TokenHash) returns (found: Option<InvitationId>)
      requires UniqueHashes(invitations)
      ensures found == LookUp(View(), c, hash)
    {
      found := FindInvitationByHash(hash);
      if found.Some? && invitations[found.value].campaign != c { return None; }
    }

    /** Under the locks, on the row named by a look-up made at any earlier time. */
    method DoAccept(actor: UserId, c: CampaignId, found: Option<InvitationId>, hash: TokenHash,
        invitationRevision: nat, accessRevision: nat, now: int) returns (outcome: Outcome)
      requires UniqueHashes(invitations)
      modifies this
      ensures var cmd := AcceptInvitation(c, hash, invitationRevision, accessRevision, now);
        && outcome == LockedVerdict(old(View()), actor, cmd, found)
        && (outcome.Done? ==> Verdict(old(View()), actor, cmd).Done? && View() == Effect(old(View()), actor, cmd))
        && (!outcome.Done? ==> View() == old(View()))
    {
      if found.None? || found.value !in invitations { return Unavailable; }
      var id := found.value;
      var invitation := invitations[id];
      if invitation.campaign != c { return Unavailable; }
      if invitation.hash != hash || invitation.status != Pending || invitation.expires <= now { return Unavailable; }
      if c !in campaigns || !campaigns[c].active { return Unavailable; }
      if invitation.revision != invitationRevision { return Conflict; }
      var campaign := campaigns[c];
      if campaign.accessRevision != accessRevision { return Conflict; }
      if ActiveIn(campaign, actor) { return BadRequest; }
      if |ActiveMembers(campaign)| >= limits.maxMembers { return Conflict; }
      LocatedIsTheOne(View(), actor, AcceptInvitation(c, hash, invitationRevision, accessRevision, now), id);
      var member := UpsertMembershipForAccept(c, actor, invitation.role);
      var consumed := ConsumeInvitation(id, Accepted, actor, Some(member.generation), invitationRevision);
      if !consumed { return Conflict; }
      var bumped := BumpCampaign(c, campaign.revision);
      if !bumped { return Conflict; }
      return Done;
    }

    method DoDecline(actor: UserId, c: CampaignId, found: Option<InvitationId>, hash: TokenHash,
        invitationRevision: nat, accessRevision: nat, now: int) returns (outcome: Outcome)
      requires UniqueHashes(invitations)
      modifies this
      ensures var cmd := DeclineInvitation(c, hash, invitationRevision, accessRevision, now);
        && outcome == LockedVerdict(old(View()), actor, cmd, found)
        && (outcome.Done? ==> Verdict(old(View()), actor, cmd).Done? && View() == Effect(old(View()), actor, cmd))
        && (!outcome.Done? ==> View() == old(View()))
    {
      if found.None? || found.value !in invitations { return Unavailable; }
      var id := found.value;
      var invitation := invitations[id];
      if invitation.campaign != c { return Unavailable; }
      if invitation.hash != hash || invitation.status != Pending || invitation.expires <= now { return Unavailable; }
      if c !in campaigns || !campaigns[c].active { return Unavailable; }
      if invitation.revision != invitationRevision { return Conflict; }
      var campaign := campaigns[c];
      if campaign.accessRevision != accessRevision { return Conflict; }
      LocatedIsTheOne(View(), actor, DeclineInvitation(c, hash, invitationRevision, accessRevision, now), id);
      var consumed := ConsumeInvitation(id, Declined, actor, None, invitationRevision);
      if !consumed { return Conflict; }
      var bumped := BumpCampaign(c, campaign.revision);
      if !bumped { return Conflict; }
      return Done;
    }

    method DoRotate(actor: UserId, c: CampaignId, id: InvitationId, hash: TokenHash, expires: int,
        invitationRevision: nat, expected: nat) returns (outcome: Outcome)
      modifies this
      ensures outcome ==
        Verdict(old(View()), actor, RotateInvitation(c, id, hash, expires, invitationRevision, expected))
      ensures View() == After(old(View()), actor, RotateInvitation(c, id, hash, expires, invitationRevision, expected))
    {
      var m := MemberOf(campaigns, c, actor);
      if !IsActive(m) || !IsGameMaster(m) { return NotFound; }
      if id !in invitations || invitations[id].campaign != c { return NotFound; }
      if invitations[id].role == CoGm && m.value.role != Owner { return NotFound; }
      if invitations[id].status != Pending { return Conflict; }
      if campaigns[c].revision != expected { return Conflict; }
      var rotated := RotateToken(id, hash, expires, invitationRevision);
      if !rotated { return Conflict; }
      var bumped := BumpCampaign(c, expected);
      if !bumped { return Conflict; }
      return Done;
    }

    method DoRevoke(actor: UserId, c: CampaignId, id: InvitationId, invitationRevision: nat, expected: nat)
        returns (outcome: Outcome)
      modifies this
      ensures outcome == Verdict(old(View()), actor, RevokeInvitation(c, id, invitationRevision, expected))
      ensures View() == After(old(View()), actor, RevokeInvitation(c, id, invitationRevision, expected))
    {
      var m := MemberOf(campaigns, c, actor);
      if !IsActive(m) || !IsGameMaster(m) { return NotFound; }
      if id !in invitations || invitations[id].campaign != c { return NotFound; }
      if invitations[id].role == CoGm && m.value.role != Owner { return NotFound; }
      if invitations[id].revision != invitationRevision { return Conflict; }
      if campaigns[c].revision != expected { return Conflict; }
      if invitations[id].status == Pending {
        var revoked := RevokePending(id, invitationRevision);
        if !revoked { return Conflict; }
        var bumped := BumpCampaign(c, expected);
        if !bumped { return Conflict; }
      } else {
        assert campaigns[c := campaigns[c]] == campaigns;
      }
      return Done;
    }

    // ---------- content commands ----------

    method DoCreateContent(actor: UserId, c: CampaignId, id: ContentId, audience: Option<ContentAudience>,
        grants: set<UserId>) returns (outcome: Outcome)
      modifies this
      ensures outcome == Verdict(old(View()), actor, CreateContent(c, id, audience, grants))
      ensures View() == After(old(View()), actor, CreateContent(c, id, audience, grants))
    {
      var m := MemberOf(campaigns, c, actor);
      if !IsActive(m) { return NotFound; }
      if !campaigns[c].active { return Conflict; }
      var gm := IsGameMaster(m);
      if !gm && audience.Some? && audience.value != OwnerOnlyNote { return BadRequest; }
      if !gm && grants != {} { return BadRequest; }
      if !AllActive(campaigns[c], grants) { return BadRequest; }
      var default := if gm then GmOnlyNote else OwnerOnlyNote;
      contents := contents[id := Content(c, actor, if audience.Some? then audience.value else default, false, 1, {})];
      if grants != {} {
        var replaced := ReplaceContentGrants(id, grants, 1);
        if !replaced { return Conflict; }
      }
      return Done;
    }

    method DoReplaceGrants(actor: UserId, id: ContentId, grants: set<UserId>, expected: nat) returns (outcome: Outcome)
      modifies this
      ensures outcome == Verdict(old(View()), actor, ReplaceGrants(id, grants, expected))
      ensures View() == After(old(View()), actor, ReplaceGrants(id, grants, expected))
    {
      if id !in contents { return NotFound; }
      var locked := contents[id];
      var m := MemberOf(campaigns, locked.campaign, actor);
      if !IsActive(m) { return NotFound; }
      if !campaigns[locked.campaign].active { return Conflict; }
      if locked.deleted { return NotFound; }
      if !CanAdministerSharing(locked.audience, locked.creator, locked.grants, actor, m) { return NotFound; }
      if !AllActive(campaigns[locked.campaign], grants) { return BadRequest; }
      if locked.revision != expected { return Conflict; }
      var updated := ReplaceContentGrants(id, grants, expected);
      if !updated { return Conflict; }
      return Done;
    }

    // ---------- placement commands: a refusal rolls the transaction back ----------

    method CheckActive(campaign: Campaign, users: seq<UserId>) returns (ok: bool)
      ensures ok == AllActive(campaign, AsSet(users))
    {
      for i := 0 to |users|
        invariant forall j :: 0 <= j < i ==> ActiveIn(campaign, users[j])
      {
        if !ActiveIn(campaign, users[i]) {
          assert users[i] in AsSet(users);
          return false;
        }
      }
      return true;
    }

    method CheckDesignees(campaign: Campaign, sheet: Sheet, users: seq<UserId>, designees: seq<UserId>)
        returns (outcome: Outcome)
      ensures outcome == DesigneesVerdict(campaign, sheet, AsSet(users), designees)
    {
      for i := 0 to |designees|
        invariant DesigneesVerdict(campaign, sheet, AsSet(users), designees) ==
          DesigneesVerdict(campaign, sheet, AsSet(users), designees[i..])
      {
        assert designees[i..][1..] == designees[i + 1..];
        if !ActiveIn(campaign, designees[i]) { return BadRequest; }
        if designees[i] in AsSet(users) { return BadRequest; }
        if designees[i] in sheet.designations { return Conflict; }
      }
      return Done;
    }

    method InsertControllers(k: SheetId, c: CampaignId, users: seq<UserId>)
      requires k in sheets && sheets[k].controllers == map[]
      modifies this`sheets
      ensures sheets == old(sheets)[k := old(sheets)[k].(controllers := ControlledBy(AsSet(users), c))]
    {
      for i := 0 to |users|
        invariant sheets == old(sheets)[k := old(sheets)[k].(controllers := ControlledBy(AsSet(users[..i]), c))]
      {
        OneMore(users, i);
        sheets := sheets[k := sheets[k].(controllers := sheets[k].controllers[users[i] := c])];
        assert sheets[k].controllers == ControlledBy(AsSet(users[..i + 1]), c);
      }
      WholeSet(users);
    }

    method InsertDesignations(k: SheetId, c: CampaignId, designator: UserId, designees: seq<UserId>)
        returns (inserted: bool)
      requires k in sheets && Distinct(designees)
      requires forall i :: 0 <= i < |designees| ==> designees[i] !in sheets[k].designations
      modifies this`sheets
      ensures inserted
      ensures var was := old(sheets)[k];
        sheets == old(sheets)[k :=
          was.(designations := Designating(was.designations, AsSet(designees), c, designator))]
    {
      ghost var before := sheets;
      NoneDesignated(before[k].designations, c, designator);
      for i := 0 to |designees|
        invariant sheets.Keys == before.Keys
        invariant sheets[k] ==
          before[k].(designations := Designating(before[k].designations, AsSet(designees[..i]), c, designator))
        invariant forall j {:trigger sheets[j]} :: j in sheets && j != k ==> sheets[j] == before[j]
      {
        OneDesignated(before[k].designations, designees, i, c, designator);
        if designees[i] in sheets[k].designations { return false; }
        sheets :=
          sheets[k := sheets[k].(designations := sheets[k].designations[designees[i] := Designation(c, designator)])];
      }
      WholeSet(designees);
      return true;
    }

    lemma NoneDesignated(designations: map<UserId, Designation>, c: CampaignId, designator: UserId)
      ensures Designating(designations, AsSet([]), c, designator) == designations
    {
    }

    lemma DesignatingOneMore(designations: map<UserId, Designation>, users: set<UserId>, u: UserId, c: CampaignId,
        designator: UserId)
      ensures Designating(designations, users + {u}, c, designator) ==
        Designating(designations, users, c, designator)[u := Designation(c, designator)]
    {
    }

    lemma OneDesignated(designations: map<UserId, Designation>, designees: seq<UserId>, i: nat, c: CampaignId,
        designator: UserId)
      requires Distinct(designees) && i < |designees| && designees[i] !in designations
      ensures designees[i] !in Designating(designations, AsSet(designees[..i]), c, designator)
      ensures Designating(designations, AsSet(designees[..i + 1]), c, designator) ==
        Designating(designations, AsSet(designees[..i]), c, designator)[designees[i] := Designation(c, designator)]
    {
      OneMore(designees, i);
      DesignatingOneMore(designations, AsSet(designees[..i]), designees[i], c, designator);
    }

    method InsertSheet(id: SheetId, c: CampaignId, version: VersionId, state: SheetState, users: seq<UserId>)
      modifies this`sheets
      ensures sheets == old(sheets)[id := NewSheet(c, version, state, AsSet(users))]
    {
      sheets := sheets[id := Sheet(None, Some(c), None, version, 1, 1, state, false, map[], map[], [])];
      InsertControllers(id, c, users);
      sheets := sheets[id := sheets[id].(placements := [Placement(1, c, None, false)])];
    }

    method ReplaceControllers(id: SheetId, c: CampaignId, users: seq<UserId>)
      requires id in sheets
      modifies this`sheets
      ensures sheets == old(sheets)[id := old(sheets)[id].(controllers := ControlledBy(AsSet(users), c))]
    {
      sheets := sheets[id := sheets[id].(controllers := map[])];
      InsertControllers(id, c, users);
    }

    method WriteAssignment(id: SheetId, c: CampaignId, actor: UserId, users: seq<UserId>, designees: seq<UserId>)
        returns (written: bool)
      requires id in sheets && Distinct(designees)
      requires forall i :: 0 <= i < |designees| ==> designees[i] !in sheets[id].designations
      modifies this`sheets
      ensures written &&
        sheets == old(sheets)[id := Assigned(old(sheets)[id], c, AsSet(users), AsSet(designees), actor)]
    {
      ReplaceControllers(id, c, users);
      written := InsertDesignations(id, c, actor, designees);
    }

    /** What the player or manager asked for, as the source lists it. */
    method NamedControllers(m: Member, actor: UserId, requested: Option<seq<UserId>>)
        returns (users: Option<seq<UserId>>)
      ensures users.None? <==> m.role == Player && requested.Some? && requested.value != [actor]
      ensures users.Some? ==>
        AsSet(users.value) ==
          if m.role == Player then {actor} else if requested.Some? then AsSet(requested.value) else {}
    {
      if m.role != Player { return Some(if requested.Some? then requested.value else []); }
      if requested.Some? && (|requested.value| != 1 || requested.value[0] != actor) { return None; }
      return Some([actor]);
    }

    method DoCreateInCampaign(actor: UserId, c: CampaignId, id: SheetId, version: VersionId, state: SheetState,
        requested: Option<seq<UserId>>, generation: nat, expected: nat) returns (outcome: Outcome)
      modifies this
      ensures outcome ==
        Verdict(old(View()), actor, CreateInCampaign(c, id, version, state, requested, generation, expected))
      ensures View() ==
        After(old(View()), actor, CreateInCampaign(c, id, version, state, requested, generation, expected))
    {
      var m := MemberOf(campaigns, c, actor);
      if !IsActive(m) { return NotFound; }
      if !campaigns[c].active { return Conflict; }
      if m.value.generation != generation { return Conflict; }
      if version != campaigns[c].version { return BadRequest; }
      if campaigns[c].revision != expected { return Conflict; }
      var named := NamedControllers(m.value, actor, requested);
      if named.None? { return BadRequest; }
      var users := named.value;
      var ok := CheckActive(campaigns[c], users);
      if !ok { return BadRequest; }
      if |Attached(sheets, c)| >= limits.maxAttached { return BadRequest; }
      InsertSheet(id, c, version, state, users);
      var bumped := BumpCampaign(c, expected);
      if !bumped { return Conflict; }
      return Done;
    }

    method DoAdopt(actor: UserId, c: CampaignId, id: SheetId, generation: nat, expected: nat, sheetRevision: nat)
        returns (outcome: Outcome)
      modifies this
      ensures outcome == Verdict(old(View()), actor, AdoptSheet(c, id, generation, expected, sheetRevision))
      ensures View() == After(old(View()), actor, AdoptSheet(c, id, generation, expected, sheetRevision))
    {
      var m := MemberOf(campaigns, c, actor);
      if !IsActive(m) { return NotFound; }
      if !campaigns[c].active { return Conflict; }
      if m.value.generation != generation { return Conflict; }
      if campaigns[c].revision != expected { return Conflict; }
      if id !in sheets || sheets[id].owner != Some(actor) { return NotFound; }
      if sheets[id].archived { return Conflict; }
      if sheets[id].campaign.Some? { return Conflict; }
      if sheets[id].version != campaigns[c].version { return BadRequest; }
      if sheets[id].revision != sheetRevision { return Conflict; }
      if |Attached(sheets, c)| >= limits.maxAttached { return BadRequest; }
      var row := sheets[id];
      sheets := sheets[id := row.(owner := None, campaign := Some(c), returnOwner := Some(actor),
        revision := row.revision + 1, generation := row.generation + 1)];
      if actor !in sheets[id].controllers {
        sheets := sheets[id := sheets[id].(controllers := sheets[id].controllers[actor := c])];
      }
      var placement := Placement(sheets[id].generation, c, Some(actor), false);
      sheets := sheets[id := sheets[id].(placements := sheets[id].placements + [placement])];
      var bumped := BumpCampaign(c, expected);
      if !bumped { return Conflict; }
      return Done;
    }

    method DoAssign(actor: UserId, c: CampaignId, id: SheetId, users: seq<UserId>, designees: seq<UserId>,
        generation: nat, expected: nat, sheetRevision: nat) returns (outcome: Outcome)
      modifies this
      ensures outcome ==
        Verdict(old(View()), actor, AssignControllers(c, id, users, designees, generation, expected, sheetRevision))
      ensures View() ==
        After(old(View()), actor, AssignControllers(c, id, users, designees, generation, expected, sheetRevision))
    {
      if !Distinct(users) || !Distinct(designees) { return BadRequest; }
      var m := MemberOf(campaigns, c, actor);
      if !IsGameMaster(m) { return NotFound; }
      if !campaigns[c].active { return Conflict; }
      if m.value.generation != generation { return Conflict; }
      if campaigns[c].revision != expected { return Conflict; }
      if id !in sheets || sheets[id].campaign != Some(c) { return NotFound; }
      var sheet := sheets[id];
      if sheet.revision != sheetRevision { return Conflict; }
      if sheet.returnOwner.Some? && sheet.returnOwner.value !in users { return BadRequest; }
      var ok := CheckActive(campaigns[c], users);
      if !ok { return BadRequest; }
      var verdict := CheckDesignees(campaigns[c], sheet, users, designees);
      if verdict != Done { return verdict; }
      DesigneesAreNew(campaigns[c], sheet, AsSet(users), designees);
      var written := WriteAssignment(id, c, actor, users, designees);
      if !written { return Conflict; }
      var bumped := BumpCampaign(c, expected);
      if !bumped { return Conflict; }
      return Done;
    }

    lemma {:induction false} DesigneesAreNew(campaign: Campaign, sheet: Sheet, users: set<UserId>,
        designees: seq<UserId>)
      requires DesigneesVerdict(campaign, sheet, users, designees).Done?
      ensures forall i :: 0 <= i < |designees| ==> designees[i] !in sheet.designations
    {
      if |designees| > 0 {
        DesigneesAreNew(campaign, sheet, users, designees[1..]);
        forall i | 0 <= i < |designees| ensures designees[i] !in sheet.designations {
          assert i > 0 ==> designees[i] == designees[1..][i - 1];
        }
      }
    }

    method DoClaim(actor: UserId, c: CampaignId, id: SheetId, generation: nat, expected: nat, sheetRevision: nat)
        returns (outcome: Outcome)
      modifies this
      ensures outcome == Verdict(old(View()), actor, ClaimSheet(c, id, generation, expected, sheetRevision))
      ensures View() == After(old(View()), actor, ClaimSheet(c, id, generation, expected, sheetRevision))
    {
      var m := MemberOf(campaigns, c, actor);
      if !IsActive(m) { return NotFound; }
      if !campaigns[c].active { return Conflict; }
      if m.value.generation != generation { return Conflict; }
      if campaigns[c].revision != expected { return Conflict; }
      if id !in sheets || sheets[id].campaign != Some(c) { return NotFound; }
      if sheets[id].revision != sheetRevision { return Conflict; }
      if actor !in sheets[id].designations { return NotFound; }
      sheets := sheets[id := sheets[id].(designations := sheets[id].designations - {actor})];
      if actor !in sheets[id].controllers {
        sheets := sheets[id := sheets[id].(controllers := sheets[id].controllers[actor := c])];
      }
      var bumped := BumpCampaign(c, expected);
      if !bumped { return Conflict; }
      return Done;
    }
  }
}
