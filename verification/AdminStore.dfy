/** Administrator accounts and invitations, and what each service call makes of them. */
module AdminStore {
  import opened Common

  type AdminId = string

  datatype Role = RootAdmin | SuperAdmin | Operations | Support | Finance

  datatype Admin = Admin(email: string, role: Role, parent: Option<AdminId>, createdBy: Option<AdminId>, active: bool)

  datatype InvitationStatus = Pending | Accepted | Revoked | Expired

  /** Invitation rows are named by their position; the token stands for its hash. */
  datatype Invitation = Invitation(
    email: string, role: Role, invitedBy: AdminId, token: string, status: InvitationStatus, expiresAt: int)

  datatype Registry = Registry(admins: map<AdminId, Admin>, invitations: seq<Invitation>)

  const INVITATION_SECONDS := 48 * 3600

  // ── Lineage ─────────────────────────────────────────────────────────────

  function ParentOf(admins: map<AdminId, Admin>, id: AdminId): Option<AdminId> {
    if id in admins && admins[id].parent.Some? && admins[id].parent.value != "" then admins[id].parent else None
  }

  /** Who is met after n parent steps. */
  function Ancestor(admins: map<AdminId, Admin>, id: AdminId, n: nat): Option<AdminId> {
    if n == 0 then Some(id) else
      match Ancestor(admins, id, n - 1)
      case None => None
      case Some(a) => ParentOf(admins, a)
  }

  ghost predicate Reaches(admins: map<AdminId, Admin>, ancestor: AdminId, target: AdminId) {
    exists n: nat :: n >= 1 && Ancestor(admins, target, n) == Some(ancestor)
  }

  ghost predicate Descends(admins: map<AdminId, Admin>, ancestor: AdminId, target: AdminId) {
    ancestor != "" && target != "" && ancestor != target && Reaches(admins, ancestor, target)
  }

  // ── Authority ───────────────────────────────────────────────────────────

  ghost predicate CanManage(admins: map<AdminId, Admin>, requester: AdminId, target: AdminId)
    requires requester in admins && target in admins
  {
    && requester != target
    && admins[target].role != RootAdmin
    && (|| admins[requester].role == RootAdmin
        || admins[target].parent == Some(requester)
        || Descends(admins, requester, target))
  }

  ghost predicate CanDemote(admins: map<AdminId, Admin>, requester: AdminId, target: AdminId)
    requires requester in admins && target in admins
  {
    && requester != target
    && admins[target].role != RootAdmin
    && (|| admins[requester].role == RootAdmin
        || if admins[target].role == SuperAdmin then
             && admins[requester].role == SuperAdmin
             && (admins[target].createdBy == Some(requester) || admins[target].parent == Some(requester))
           else CanManage(admins, requester, target))
  }

  predicate CanInvite(requester: Role, role: Role) {
    role != RootAdmin && (requester == RootAdmin || requester == SuperAdmin)
  }

  // ── Invitations ─────────────────────────────────────────────────────────

  datatype AdminError =
    | NotFound | NotAuthorized | RootForbidden | EmailTaken | InvalidToken | NotPending(status: InvitationStatus)
    | TokenExpired | ActiveRootExists

  predicate EmailKnown(admins: map<AdminId, Admin>, email: string) {
    exists a | a in admins :: admins[a].email == email
  }

  function RevokePending(invitations: seq<Invitation>, email: string): (r: seq<Invitation>)
    ensures |r| == |invitations|
    ensures forall i | 0 <= i < |r| ::
      r[i] == if invitations[i].email == email && invitations[i].status == Pending
              then invitations[i].(status := Revoked) else invitations[i]
  {
    seq(|invitations|, i requires 0 <= i < |invitations| =>
      if invitations[i].email == email && invitations[i].status == Pending
      then invitations[i].(status := Revoked) else invitations[i])
  }

  function InviteCheck(r: Registry, requester: AdminId, email: string, role: Role): Outcome<AdminError>
    requires requester in r.admins
  {
    if role == RootAdmin then Raised(RootForbidden)
    else if !CanInvite(r.admins[requester].role, role) then Raised(NotAuthorized)
    else if EmailKnown(r.admins, Lower(email)) then Raised(EmailTaken)
    else Done
  }

  /** The new invitation replaces the pending ones for that address. */
  function Invite(r: Registry, requester: AdminId, email: string, role: Role, token: string, now: int): Registry
    requires requester in r.admins
  {
    if !InviteCheck(r, requester, email, role).Done? then r else
      r.(invitations := RevokePending(r.invitations, Lower(email)) +
           [Invitation(Lower(email), role, requester, token, Pending, now + INVITATION_SECONDS)])
  }

  function WithStatus(r: Registry, i: nat, status: InvitationStatus): Registry
    requires i < |r.invitations|
  {
    r.(invitations := r.invitations[i := r.invitations[i].(status := status)])
  }

  function OwnerCheck(r: Registry, requester: AdminId, i: nat): Outcome<AdminError>
    requires requester in r.admins
  {
    if i >= |r.invitations| then Raised(NotFound)
    else if r.invitations[i].invitedBy != requester && r.admins[requester].role != RootAdmin then Raised(NotAuthorized)
    else Done
  }

  function ResendCheck(r: Registry, requester: AdminId, i: nat): Outcome<AdminError>
    requires requester in r.admins
  {
    if !OwnerCheck(r, requester, i).Done? then OwnerCheck(r, requester, i)
    else InviteCheck(r, requester, r.invitations[i].email, r.invitations[i].role)
  }

  /** The old invitation is revoked whatever its status, and stays so when the new one is refused. */
  function Resend(r: Registry, requester: AdminId, i: nat, token: string, now: int): Registry
    requires requester in r.admins
  {
    if !OwnerCheck(r, requester, i).Done? then r else
      var invitation := r.invitations[i];
      Invite(WithStatus(r, i, Revoked), requester, invitation.email, invitation.role, token, now)
  }

  function RevokeCheck(r: Registry, requester: AdminId, i: nat): Outcome<AdminError>
    requires requester in r.admins
  {
    if !OwnerCheck(r, requester, i).Done? then OwnerCheck(r, requester, i)
    else if r.invitations[i].status != Pending then Raised(NotPending(r.invitations[i].status))
    else Done
  }

  function Revoke(r: Registry, requester: AdminId, i: nat): Registry
    requires requester in r.admins
  {
    if RevokeCheck(r, requester, i).Done? then WithStatus(r, i, Revoked) else r
  }

  /** The oldest invitation with the token. */
  function FindToken(invitations: seq<Invitation>, token: string): (i: Option<nat>)
    ensures i.Some? ==> i.value < |invitations| && invitations[i.value].token == token
  {
    if |invitations| == 0 then None else
      var n := |invitations| - 1;
      var found := FindToken(invitations[..n], token);
      if found.Some? then found else if invitations[n].token == token then Some(n) else None
  }

  function AcceptCheck(r: Registry, token: string, now: int): Outcome<AdminError> {
    match FindToken(r.invitations, token)
    case None => Raised(InvalidToken)
    case Some(i) =>
      var invitation := r.invitations[i];
      if invitation.status != Pending then Raised(NotPending(invitation.status))
      else if invitation.expiresAt < now then Raised(TokenExpired)
      else if EmailKnown(r.admins, invitation.email) then Raised(EmailTaken)
      else Done
  }

  /** The account gets the invited role, below the inviter; an overdue invitation is marked. */
  function Accept(r: Registry, token: string, id: AdminId, now: int): Registry {
    match AcceptCheck(r, token, now)
    case Done =>
      var i := FindToken(r.invitations, token).value;
      var invitation := r.invitations[i];
      WithStatus(r, i, Accepted).(admins := r.admins[id :=
        Admin(invitation.email, invitation.role, Some(invitation.invitedBy), Some(invitation.invitedBy), true)])
    case Raised(TokenExpired) => WithStatus(r, FindToken(r.invitations, token).value, Expired)
    case _ => r
  }

  // ── Accounts ────────────────────────────────────────────────────────────

  ghost function ManageCheck(r: Registry, requester: AdminId, target: AdminId): Outcome<AdminError>
    requires requester in r.admins
  {
    if target !in r.admins then Raised(NotFound)
    else if !CanManage(r.admins, requester, target) then Raised(NotAuthorized)
    else Done
  }

  ghost function RoleCheck(r: Registry, requester: AdminId, target: AdminId, role: Role): Outcome<AdminError>
    requires requester in r.admins
  {
    if !ManageCheck(r, requester, target).Done? then ManageCheck(r, requester, target)
    else if r.admins[target].role == SuperAdmin && role != SuperAdmin && role != RootAdmin
            && !CanDemote(r.admins, requester, target) then Raised(NotAuthorized)
    else if role == RootAdmin then Raised(RootForbidden)
    else Done
  }

  ghost function ChangeRole(r: Registry, requester: AdminId, target: AdminId, role: Role): Registry
    requires requester in r.admins
  {
    if RoleCheck(r, requester, target, role).Done?
    then r.(admins := r.admins[target := r.admins[target].(role := role)]) else r
  }

  ghost function SetActive(r: Registry, requester: AdminId, target: AdminId, active: bool): Registry
    requires requester in r.admins
  {
    if ManageCheck(r, requester, target).Done?
    then r.(admins := r.admins[target := r.admins[target].(active := active)]) else r
  }

  predicate IsActiveRoot(admin: Admin) {
    admin.role == RootAdmin && admin.active
  }

  function BootstrapCheck(r: Registry, email: string, force: bool): Outcome<AdminError> {
    if (exists a | a in r.admins :: IsActiveRoot(r.admins[a])) && !force then Raised(ActiveRootExists)
    else if EmailKnown(r.admins, Lower(email)) then Raised(EmailTaken)
    else Done
  }

  function Bootstrap(r: Registry, id: AdminId, email: string, force: bool): Registry {
    if BootstrapCheck(r, email, force).Done?
    then r.(admins := r.admins[id := Admin(Lower(email), RootAdmin, None, None, true)]) else r
  }
}
