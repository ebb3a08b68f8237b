/**
 What each call of the admin service makes of accounts and invitations, told by the rows it finds: who may act
 on whom is read off the lineage, and an open invitation off its token, its date and its address.
 */
module AdminTables {
  import opened Common
  import opened AdminStore
  import opened AdminSafety

  /** The account is below the requester, or he is a root admin; a root admin is below nobody. */
  ghost predicate Oversees(r: Registry, requester: AdminId, t: AdminId) {
    && requester in r.admins && t in r.admins && r.admins[t].role != RootAdmin
    && (r.admins[requester].role == RootAdmin || Reaches(r.admins, requester, t))
  }

  predicate IsTaken(r: Registry, email: string) {
    exists a | a in r.admins :: r.admins[a].email == email
  }

  /** Root and super admins invite to any role but root, at an address that nobody has. */
  predicate MayInvite(r: Registry, requester: AdminId, email: string, role: Role) {
    && requester in r.admins && r.admins[requester].role in {RootAdmin, SuperAdmin} && role != RootAdmin
    && !IsTaken(r, Lower(email))
  }

  predicate Owns(r: Registry, requester: AdminId, i: nat) {
    && requester in r.admins && i < |r.invitations|
    && (r.invitations[i].invitedBy == requester || r.admins[requester].role == RootAdmin)
  }

  // ── Invitations ─────────────────────────────────────────────────────────

  /** An invitation is good for 172800 seconds. */
  function Offered(r: Registry, e: Event): Option<Invitation> {
    match e
    case Invites(requester, email, role, token, now) =>
      if MayInvite(r, requester, email, role) then Some(Invitation(Lower(email), role, requester, token, Pending, now + 172800)) else None
    case Resends(requester, i, token, now) =>
      if Owns(r, requester, i) && MayInvite(r, requester, r.invitations[i].email, r.invitations[i].role)
      then Some(Invitation(Lower(r.invitations[i].email), r.invitations[i].role, requester, token, Pending, now + 172800)) else None
    case _ => None
  }

  /** Row i is the oldest with the token. */
  predicate IsOldest(r: Registry, i: nat, token: string) {
    i < |r.invitations| && r.invitations[i].token == token && forall j | 0 <= j < i :: r.invitations[j].token != token
  }

  /** The token finds an open invitation in good time, to an address that is still free. */
  predicate Admits(r: Registry, e: Event, i: nat) {
    && e.Accepts? && Enabled(r, e) && IsOldest(r, i, e.token) && r.invitations[i].status == Pending
    && e.now <= r.invitations[i].expiresAt && !IsTaken(r, r.invitations[i].email)
  }

  predicate ComesTooLate(r: Registry, e: Event, i: nat) {
    && e.Accepts? && Enabled(r, e) && IsOldest(r, i, e.token) && r.invitations[i].status == Pending
    && r.invitations[i].expiresAt < e.now
  }

  function StatusAfter(r: Registry, e: Event, i: nat): InvitationStatus
    requires i < |r.invitations|
  {
    var row := r.invitations[i];
    if e.Resends? && e.invitation == i && Owns(r, e.requester, i) then Revoked
    else if e.Revokes? && e.invitation == i && Owns(r, e.requester, i) && row.status == Pending then Revoked
    else if Offered(r, e).Some? && Offered(r, e).value.email == row.email && row.status == Pending then Revoked
    else if Admits(r, e, i) then Accepted
    else if ComesTooLate(r, e, i) then Expired
    else row.status
  }

  lemma TakenIsKnown(r: Registry, email: string)
    ensures IsTaken(r, email) <==> EmailKnown(r.admins, email)
  {
  }

  lemma {:induction false} OldestIsFound(r: Registry, token: string, n: nat)
    requires n <= |r.invitations|
    ensures match FindToken(r.invitations[..n], token)
      case Some(i) => IsOldest(r, i, token)
      case None => forall i | 0 <= i < n :: r.invitations[i].token != token
  {
    if n > 0 {
      assert r.invitations[..n][..n - 1] == r.invitations[..n - 1];
      OldestIsFound(r, token, n - 1);
    }
  }

  /** The token's query finds the oldest row with it, if there is one. */
  lemma TokenFinds(r: Registry, token: string)
    ensures match FindToken(r.invitations, token)
      case Some(i) => IsOldest(r, i, token) && forall j | IsOldest(r, j, token) :: j == i
      case None => forall j :: !IsOldest(r, j, token)
  {
    assert r.invitations[..|r.invitations|] == r.invitations;
    OldestIsFound(r, token, |r.invitations|);
    hide FindToken;
  }

  predicate RowsAre(r: Registry, e: Event, after: seq<Invitation>) {
    && |after| == |r.invitations| + (if Offered(r, e).Some? then 1 else 0)
    && (forall i | 0 <= i < |r.invitations| :: after[i] == r.invitations[i].(status := StatusAfter(r, e, i)))
    && (Offered(r, e).Some? ==> after[|r.invitations|] == Offered(r, e).value)
  }

  lemma OfferTells(r: Registry, e: Event)
    requires e.Invites? || e.Resends?
    ensures RowsAre(r, e, Step(r, e).invitations)
  {
    if e.Invites? {
      TakenIsKnown(r, Lower(e.email));
    } else if e.invitation < |r.invitations| {
      TakenIsKnown(r, Lower(r.invitations[e.invitation].email));
    }
    hide Lower, EmailKnown, IsTaken;
  }

  lemma AcceptTells(r: Registry, e: Event)
    requires e.Accepts?
    ensures RowsAre(r, e, Step(r, e).invitations)
  {
    TokenFinds(r, e.token);
    var found := FindToken(r.invitations, e.token);
    if found.Some? {
      TakenIsKnown(r, r.invitations[found.value].email);
    }
    hide FindToken, EmailKnown, IsTaken, IsOldest;
  }

  /** In every call a row ends by its own revocation or resending, a new offer to its address, or its token; one row is added by an offer. */
  lemma InvitationTells(r: Registry, e: Event)
    ensures RowsAre(r, e, Step(r, e).invitations)
  {
    if e.Invites? || e.Resends? {
      OfferTells(r, e);
    } else if e.Accepts? {
      AcceptTells(r, e);
    } else {
      hide Lower, EmailKnown, IsTaken, CanManage, CanDemote;
    }
  }

  // ── Accounts ────────────────────────────────────────────────────────────

  /** A super admin is put lower by a root admin or by the super admin who invited him. */
  ghost predicate MayGive(r: Registry, requester: AdminId, t: AdminId, role: Role) {
    && Oversees(r, requester, t) && role != RootAdmin
    && (r.admins[t].role == SuperAdmin && role != SuperAdmin ==>
          r.admins[requester].role == RootAdmin || (r.admins[requester].role == SuperAdmin && r.admins[t].parent == Some(requester)))
  }

  ghost function AccountsAfter(r: Registry, e: Event): map<AdminId, Admin> {
    match e
    case Bootstraps(id, email, force) =>
      if Enabled(r, e) && !IsTaken(r, Lower(email))
         && (force || forall a | a in r.admins && r.admins[a].role == RootAdmin :: !r.admins[a].active)
      then r.admins[id := Admin(Lower(email), RootAdmin, None, None, true)] else r.admins
    case Accepts(token, id, now) =>
      if i: nat :| Admits(r, e, i)
      then r.admins[id := Admin(r.invitations[i].email, r.invitations[i].role,
                                Some(r.invitations[i].invitedBy), Some(r.invitations[i].invitedBy), true)]
      else r.admins
    case ChangesRole(requester, t, role) =>
      if MayGive(r, requester, t, role) then r.admins[t := r.admins[t].(role := role)] else r.admins
    case SetsActive(requester, t, active) =>
      if Oversees(r, requester, t) then r.admins[t := r.admins[t].(active := active)] else r.admins
    case _ => r.admins
  }

  lemma ManagesIs(r: Registry, requester: AdminId, t: AdminId)
    requires Forest(r.admins) && requester in r.admins && t in r.admins
    ensures CanManage(r.admins, requester, t) <==> Oversees(r, requester, t)
  {
    ManagesWhen(r.admins, requester, t);
    hide Forest, Reaches;
  }

  lemma GivesIs(r: Registry, requester: AdminId, t: AdminId, role: Role)
    requires Forest(r.admins) && requester in r.admins
    ensures RoleCheck(r, requester, t, role).Done? <==> MayGive(r, requester, t, role)
  {
    if t in r.admins {
      ManagesIs(r, requester, t);
      var rank: map<AdminId, nat> :| Ranked(r.admins, rank);
      assert r.admins[t].createdBy == r.admins[t].parent;
    }
    hide Forest, Reaches, CanManage;
  }

  lemma AdmittedAccount(r: Registry, e: Event)
    requires e.Accepts?
    ensures Step(r, e).admins == AccountsAfter(r, e)
  {
    TokenFinds(r, e.token);
    var found := FindToken(r.invitations, e.token);
    if found.Some? {
      TakenIsKnown(r, r.invitations[found.value].email);
      assert Enabled(r, e) && AcceptCheck(r, e.token, e.now).Done? ==> Admits(r, e, found.value);
    }
    hide FindToken, EmailKnown, IsTaken, IsOldest;
  }

  /**
   In every reachable state an account is added by the command line or by a token, changed in role or activity
   by somebody above it, and otherwise stays as it is.
   */
  lemma AccountTells(run: seq<Event>, e: Event)
    ensures Step(After(run), e).admins == AccountsAfter(After(run), e)
  {
    RunKeeps(run);
    var r := After(run);
    hide After, Forest, EmailsUnique, Lower, EmailKnown, IsTaken, CanManage, Oversees, RoleCheck, MayGive, FindToken, Ranked;
    match e {
      case Accepts(_, _, _) => AdmittedAccount(r, e);
      case Bootstraps(_, email, _) => TakenIsKnown(r, Lower(email));
      case ChangesRole(requester, t, role) =>
        if requester in r.admins {
          GivesIs(r, requester, t, role);
        } else {
          assert !MayGive(r, requester, t, role) by { Outsider(r, requester, t, role); }
        }
      case SetsActive(requester, t, _) =>
        Outsider(r, requester, t, Support);
        if requester in r.admins && t in r.admins {
          ManagesIs(r, requester, t);
        }
      case _ =>
    }
  }

  lemma Outsider(r: Registry, requester: AdminId, t: AdminId, role: Role)
    ensures MayGive(r, requester, t, role) ==> Oversees(r, requester, t)
    ensures Oversees(r, requester, t) ==> requester in r.admins && t in r.admins
  {
  }
}
