/** Current-membership decisions (src/campaigns/policy.ts, src/campaigns/templatePolicy.ts). */
module Policy {
  import opened Wrappers

  type UserId = string

  datatype Role = Owner | CoGm | Player

  datatype Status = Active | Removed

  datatype Member = Member(role: Role, status: Status, generation: nat)

  predicate IsActive(m: Option<Member>) { m.Some? && m.value.status == Active }

  predicate IsGameMaster(m: Option<Member>) { IsActive(m) && m.value.role != Player }

  // ---------- rolls ----------

  datatype RollAudience = OwnerOnly | GmOnly | CampaignWide

  function Rank(a: RollAudience): nat {
    match a
    case OwnerOnly => 0
    case GmOnly => 1
    case CampaignWide => 2
  }

  predicate CanReadRoll(audience: RollAudience, principal: UserId, reader: UserId, m: Option<Member>) {
    IsActive(m) &&
    match audience
    case CampaignWide => true
    case GmOnly => IsGameMaster(m) || reader == principal
    case OwnerOnly => reader == principal
  }

  /** Reader by reader: outsiders read nothing, principals all, managers all but private rolls, players open ones. */
  lemma WhoReadsARoll(audience: RollAudience, principal: UserId, reader: UserId, m: Option<Member>)
    ensures m.None? || m.value.status == Removed ==> !CanReadRoll(audience, principal, reader, m)
    ensures m.Some? && m.value.status == Active ==>
      (CanReadRoll(audience, principal, reader, m) <==>
       audience !in (if reader == principal then {} else if m.value.role == Player then {OwnerOnly, GmOnly}
                     else {OwnerOnly}))
  {
  }

  // ---------- campaign content ----------

  datatype ContentAudience = GmOnlyNote | AllPlayers | SelectedPlayers | OwnerOnlyNote

  predicate CanReadContent(audience: ContentAudience, creator: UserId, grants: set<UserId>, reader: UserId,
      m: Option<Member>) {
    IsActive(m) &&
    match audience
    case GmOnlyNote => IsGameMaster(m)
    case AllPlayers => true
    case SelectedPlayers => IsGameMaster(m) || reader in grants
    case OwnerOnlyNote => reader == creator
  }

  predicate CanAdministerSharing(audience: ContentAudience, creator: UserId, grants: set<UserId>, reader: UserId,
      m: Option<Member>) {
    IsGameMaster(m) && CanReadContent(audience, creator, grants, reader, m)
  }

  /** Reader by reader: a private note is its creator's alone, whatever their role; grants matter to players only. */
  lemma WhoReadsANote(audience: ContentAudience, creator: UserId, grants: set<UserId>, reader: UserId,
      m: Option<Member>)
    ensures m.None? || m.value.status == Removed ==> !CanReadContent(audience, creator, grants, reader, m)
    ensures m.Some? && m.value.status == Active ==>
      (CanReadContent(audience, creator, grants, reader, m) <==>
       audience in (if m.value.role == Player then {AllPlayers} else {AllPlayers, GmOnlyNote, SelectedPlayers})
         + (if reader == creator then {OwnerOnlyNote} else {}) + (if reader in grants then {SelectedPlayers} else {}))
    ensures CanAdministerSharing(audience, creator, grants, reader, m) <==>
      m.Some? && m.value.status == Active && m.value.role != Player && (audience == OwnerOnlyNote ==> reader == creator)
  {
  }

  // ---------- membership changes ----------

  datatype Denial = NotMember | NotManager | OwnerImmutable | OwnerOnlyDenial | SelfOnly

  function AuthorizeRoleChange(caller: Option<Member>, target: Option<Member>, newRole: Role): Option<Denial> {
    if !IsActive(caller) || !IsActive(target) then Some(NotMember)
    else if !IsGameMaster(caller) then Some(NotManager)
    else if target.value.role == Owner || newRole == Owner then Some(OwnerImmutable)
    else if (target.value.role == CoGm || newRole == CoGm) && caller.value.role != Owner then Some(OwnerOnlyDenial)
    else None
  }

  function AuthorizeRemoval(callerId: UserId, caller: Option<Member>, targetId: UserId,
      target: Option<Member>): Option<Denial> {
    if !IsActive(caller) || !IsActive(target) then Some(NotMember)
    else if target.value.role == Owner then Some(OwnerImmutable)
    else if callerId == targetId then None
    else if !IsGameMaster(caller) then Some(SelfOnly)
    else if target.value.role == CoGm && caller.value.role != Owner then Some(OwnerOnlyDenial)
    else None
  }

  // ---------- templates: grants bound to one membership generation ----------

  datatype TemplateAudience = EveryPlayer | GmsOnly | Selected

  datatype TemplateGrant = TemplateGrant(userId: UserId, generation: nat)

  predicate CanReadTemplate(audience: TemplateAudience, active: bool, grants: seq<TemplateGrant>, reader: UserId,
      m: Option<Member>) {
    IsActive(m) &&
    (IsGameMaster(m) ||
     (active &&
      (audience == EveryPlayer ||
       (audience == Selected && exists i ::
         0 <= i < |grants| && grants[i] == TemplateGrant(reader, m.value.generation)))))
  }

  /**
   * A manager reads every template; a player while it is active, if it is for all or by a grant to their present
   * membership.
   */
  lemma WhoReadsATemplate(audience: TemplateAudience, active: bool, grants: seq<TemplateGrant>, reader: UserId,
      m: Option<Member>)
    ensures m.None? || m.value.status == Removed ==> !CanReadTemplate(audience, active, grants, reader, m)
    ensures m.Some? && m.value.status == Active ==>
      (CanReadTemplate(audience, active, grants, reader, m) <==>
       m.value.role != Player || (active && audience == EveryPlayer) ||
       (active && audience == Selected &&
        exists g :: g in grants && g.userId == reader && g.generation == m.value.generation))
  {
    if m.Some? {
      var mine := TemplateGrant(reader, m.value.generation);
      assert mine in grants <==> exists g :: g in grants && g.userId == reader && g.generation == m.value.generation;
    }
  }
}
