/** The admin service as the code runs it. */
module AdminServices {
  import opened Common
  import opened AdminStore

  class AdminService {
    var admins: map<AdminId, Admin>
    var invitations: seq<Invitation>

    constructor ()
      ensures Snapshot() == Registry(map[], [])
    {
      admins := map[];
      invitations := [];
    }

    function Snapshot(): Registry
      reads this
    {
      Registry(admins, invitations)
    }

    /** Follows parent pointers upwards; the table may hold cycles and ids of missing rows. */
    method IsDescendant(ancestor: AdminId, target: AdminId) returns (below: bool)
      ensures below <==> Descends(admins, ancestor, target)
    {
      if ancestor == "" || target == "" || ancestor == target {
        return false;
      }
      var current := target;
      var visited: set<AdminId> := {};
      ghost var path: seq<AdminId> := [];
      while current != "" && current !in visited
        invariant current != "" && Ancestor(admins, target, |path|) == Some(current)
        invariant visited <= admins.Keys && forall x :: x in visited <==> x in path
        invariant forall k: nat | k < |path| :: Ancestor(admins, target, k) == Some(path[k])
        invariant NotWithin(admins, ancestor, target, |path|)
        decreases admins.Keys - visited
      {
        visited := visited + {current};
        var next := ParentOf(admins, current);
        NextStep(admins, target, |path|);
        hide Ancestor, NotWithin;
        if next == None {
          ChainEnds(admins, ancestor, target, |path| + 1);
          return false;
        }
        if next == Some(ancestor) {
          assert Reaches(admins, ancestor, target);
          return true;
        }
        OneMore(admins, ancestor, target, |path|);
        path := path + [current];
        current := next.value;
      }
      ghost var first: nat :| first < |path| && path[first] == current;
      ChainRepeats(admins, target, first, |path|, ancestor);
      below := false;
    }

    method CanManageAdmin(requester: AdminId, target: AdminId) returns (can: bool)
      requires requester in admins && target in admins
      ensures can <==> CanManage(admins, requester, target)
    {
      if requester == target {
        return false;
      }
      if admins[target].role == RootAdmin {
        return false;
      }
      if admins[requester].role == RootAdmin {
        return true;
      }
      if admins[target].parent == Some(requester) {
        return true;
      }
      can := IsDescendant(requester, target);
    }

    method CanDemoteAdmin(requester: AdminId, target: AdminId) returns (can: bool)
      requires requester in admins && target in admins
      ensures can <==> CanDemote(admins, requester, target)
    {
      if requester == target {
        return false;
      }
      if admins[target].role == RootAdmin {
        return false;
      }
      if admins[requester].role == RootAdmin {
        return true;
      }
      if admins[target].role == SuperAdmin {
        return admins[requester].role == SuperAdmin
          && (admins[target].createdBy == Some(requester) || admins[target].parent == Some(requester));
      }
      can := CanManageAdmin(requester, target);
    }

    method CreateInvitation(requester: AdminId, email: string, role: Role, token: string, now: int)
      returns (outcome: Outcome<AdminError>)
      requires requester in admins
      modifies this`invitations
      ensures outcome == InviteCheck(old(Snapshot()), requester, email, role)
      ensures Snapshot() == Invite(old(Snapshot()), requester, email, role, token, now)
    {
      if role == RootAdmin {
        return Raised(RootForbidden);
      }
      if !CanInvite(admins[requester].role, role) {
        return Raised(NotAuthorized);
      }
      if EmailKnown(admins, Lower(email)) {
        return Raised(EmailTaken);
      }
      ghost var before := invitations;
      var i := 0;
      while i < |invitations|
        invariant 0 <= i <= |invitations| == |before|
        invariant invitations[..i] == RevokePending(before, Lower(email))[..i]
        invariant invitations[i..] == before[i..]
      {
        assert invitations[i] == before[i];
        if invitations[i].email == Lower(email) && invitations[i].status == Pending {
          invitations := invitations[i := invitations[i].(status := Revoked)];
        }
        i := i + 1;
      }
      assert invitations == RevokePending(before, Lower(email));
      invitations := invitations + [Invitation(Lower(email), role, requester, token, Pending, now + INVITATION_SECONDS)];
      outcome := Done;
    }

    method ResendInvitation(requester: AdminId, i: nat, token: string, now: int) returns (outcome: Outcome<AdminError>)
      requires requester in admins
      modifies this`invitations
      ensures outcome == ResendCheck(old(Snapshot()), requester, i)
      ensures Snapshot() == Resend(old(Snapshot()), requester, i, token, now)
    {
      if i >= |invitations| {
        return Raised(NotFound);
      }
      var invitation := invitations[i];
      if invitation.invitedBy != requester && admins[requester].role != RootAdmin {
        return Raised(NotAuthorized);
      }
      invitations := invitations[i := invitation.(status := Revoked)];
      outcome := CreateInvitation(requester, invitation.email, invitation.role, token, now);
    }

    method RevokeInvitation(requester: AdminId, i: nat) returns (outcome: Outcome<AdminError>)
      requires requester in admins
      modifies this`invitations
      ensures outcome == RevokeCheck(old(Snapshot()), requester, i)
      ensures Snapshot() == Revoke(old(Snapshot()), requester, i)
    {
      if i >= |invitations| {
        return Raised(NotFound);
      }
      if invitations[i].invitedBy != requester && admins[requester].role != RootAdmin {
        return Raised(NotAuthorized);
      }
      if invitations[i].status != Pending {
        return Raised(NotPending(invitations[i].status));
      }
      invitations := invitations[i := invitations[i].(status := Revoked)];
      outcome := Done;
    }

    method AcceptInvitation(token: string, id: AdminId, now: int) returns (outcome: Outcome<AdminError>)
      modifies this
      ensures outcome == AcceptCheck(old(Snapshot()), token, now)
      ensures Snapshot() == Accept(old(Snapshot()), token, id, now)
    {
      var found := FindToken(invitations, token);
      if found == None {
        return Raised(InvalidToken);
      }
      var i := found.value;
      var invitation := invitations[i];
      if invitation.status != Pending {
        return Raised(NotPending(invitation.status));
      }
      if invitation.expiresAt < now {
        invitations := invitations[i := invitation.(status := Expired)];
        return Raised(TokenExpired);
      }
      if EmailKnown(admins, invitation.email) {
        return Raised(EmailTaken);
      }
      invitations := invitations[i := invitation.(status := Accepted)];
      admins := admins[id :=
        Admin(invitation.email, invitation.role, Some(invitation.invitedBy), Some(invitation.invitedBy), true)];
      outcome := Done;
    }

    method ChangeAdminRole(requester: AdminId, target: AdminId, role: Role) returns (outcome: Outcome<AdminError>)
      requires requester in admins
      modifies this`admins
      ensures outcome == RoleCheck(old(Snapshot()), requester, target, role)
      ensures Snapshot() == ChangeRole(old(Snapshot()), requester, target, role)
    {
      if target !in admins {
        return Raised(NotFound);
      }
      var manages := CanManageAdmin(requester, target);
      if !manages {
        return Raised(NotAuthorized);
      }
      if admins[target].role == SuperAdmin && role != SuperAdmin && role != RootAdmin {
        var demotes := CanDemoteAdmin(requester, target);
        if !demotes {
          return Raised(NotAuthorized);
        }
      }
      if role == RootAdmin {
        return Raised(RootForbidden);
      }
      admins := admins[target := admins[target].(role := role)];
      outcome := Done;
    }

    method DeactivateAdmin(requester: AdminId, target: AdminId) returns (outcome: Outcome<AdminError>)
      requires requester in admins
      modifies this`admins
      ensures outcome == ManageCheck(old(Snapshot()), requester, target)
      ensures Snapshot() == SetActive(old(Snapshot()), requester, target, false)
    {
      if target !in admins {
        return Raised(NotFound);
      }
      var manages := CanManageAdmin(requester, target);
      if !manages {
        return Raised(NotAuthorized);
      }
      // The source counts the active root admins here when the target is one; nobody manages a root admin.
      assert admins[target].role != RootAdmin;
      admins := admins[target := admins[target].(active := false)];
      outcome := Done;
    }

    method ReactivateAdmin(requester: AdminId, target: AdminId) returns (outcome: Outcome<AdminError>)
      requires requester in admins
      modifies this`admins
      ensures outcome == ManageCheck(old(Snapshot()), requester, target)
      ensures Snapshot() == SetActive(old(Snapshot()), requester, target, true)
    {
      if target !in admins {
        return Raised(NotFound);
      }
      var manages := CanManageAdmin(requester, target);
      if !manages {
        return Raised(NotAuthorized);
      }
      admins := admins[target := admins[target].(active := true)];
      outcome := Done;
    }

    method BootstrapRootAdmin(id: AdminId, email: string, force: bool) returns (outcome: Outcome<AdminError>)
      modifies this`admins
      ensures outcome == BootstrapCheck(old(Snapshot()), email, force)
      ensures Snapshot() == Bootstrap(old(Snapshot()), id, email, force)
    {
      if (exists a | a in admins :: IsActiveRoot(admins[a])) && !force {
        return Raised(ActiveRootExists);
      }
      if EmailKnown(admins, Lower(email)) {
        return Raised(EmailTaken);
      }
      admins := admins[id := Admin(Lower(email), RootAdmin, None, None, true)];
      outcome := Done;
    }
  }

  /** None of the first n steps up meets the ancestor. */
  ghost predicate NotWithin(admins: map<AdminId, Admin>, ancestor: AdminId, target: AdminId, n: nat) {
    forall k: nat | 1 <= k <= n :: Ancestor(admins, target, k) != Some(ancestor)
  }

  lemma NextStep(admins: map<AdminId, Admin>, target: AdminId, n: nat)
    requires Ancestor(admins, target, n).Some?
    ensures Ancestor(admins, target, n + 1) == ParentOf(admins, Ancestor(admins, target, n).value)
  {
  }

  lemma OneMore(admins: map<AdminId, Admin>, ancestor: AdminId, target: AdminId, n: nat)
    requires NotWithin(admins, ancestor, target, n) && Ancestor(admins, target, n + 1) != Some(ancestor)
    ensures NotWithin(admins, ancestor, target, n + 1)
  {
  }

  /** Nobody is met above the end of a chain. */
  lemma {:induction false} ChainEndsBy(admins: map<AdminId, Admin>, target: AdminId, n: nat, m: nat)
    requires Ancestor(admins, target, n) == None && n <= m
    ensures Ancestor(admins, target, m) == None
  {
    if n < m {
      ChainEndsBy(admins, target, n, m - 1);
    }
  }

  lemma ChainEnds(admins: map<AdminId, Admin>, ancestor: AdminId, target: AdminId, n: nat)
    requires n > 0 && NotWithin(admins, ancestor, target, n - 1) && Ancestor(admins, target, n) == None
    ensures !Reaches(admins, ancestor, target)
  {
    forall m: nat | n <= m ensures Ancestor(admins, target, m) == None {
      ChainEndsBy(admins, target, n, m);
    }
  }

  /** A chain that returns to an earlier place meets nobody new. */
  lemma {:induction false} ChainRepeatsBy(admins: map<AdminId, Admin>, target: AdminId, first: nat, n: nat, m: nat)
    requires first < n && Ancestor(admins, target, first) == Ancestor(admins, target, n)
    ensures exists k: nat :: k < n && Ancestor(admins, target, k) == Ancestor(admins, target, m)
    decreases m
  {
    if m >= n {
      if m == n {
        assert Ancestor(admins, target, first) == Ancestor(admins, target, m);
      } else {
        ChainRepeatsBy(admins, target, first, n, m - 1);
        var k: nat :| k < n && Ancestor(admins, target, k) == Ancestor(admins, target, m - 1);
        assert Ancestor(admins, target, k + 1) == Ancestor(admins, target, m);
        if k + 1 == n {
          assert Ancestor(admins, target, first) == Ancestor(admins, target, m);
        }
      }
    }
  }

  lemma ChainRepeats(admins: map<AdminId, Admin>, target: AdminId, first: nat, n: nat, ancestor: AdminId)
    requires first < n && Ancestor(admins, target, first) == Ancestor(admins, target, n)
    requires ancestor != target && NotWithin(admins, ancestor, target, n)
    ensures !Reaches(admins, ancestor, target)
  {
    forall m: nat ensures Ancestor(admins, target, m) != Some(ancestor) {
      ChainRepeatsBy(admins, target, first, n, m);
    }
  }
}
