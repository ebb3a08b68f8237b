/** Runs of the admin service: in every reachable state authority is a strict partial order over a forest. */
module AdminSafety {
  import opened Common
  import opened AdminStore

  datatype Event =
    | Bootstraps(id: AdminId, email: string, force: bool)
    | Invites(requester: AdminId, email: string, role: Role, token: string, now: int)
    | Resends(requester: AdminId, invitation: nat, token: string, now: int)
    | Revokes(requester: AdminId, invitation: nat)
    | Accepts(token: string, id: AdminId, now: int)
    | ChangesRole(requester: AdminId, target: AdminId, role: Role)
    | SetsActive(requester: AdminId, target: AdminId, active: bool)

  /** Requesters are accounts; an account gets an id that nobody has. */
  predicate Enabled(r: Registry, e: Event) {
    match e
    case Bootstraps(id, _, _) => id != "" && id !in r.admins
    case Accepts(_, id, _) => id != "" && id !in r.admins
    case _ => e.requester in r.admins
  }

  ghost function Do(r: Registry, e: Event): Registry
    requires Enabled(r, e)
  {
    match e
    case Bootstraps(id, email, force) => Bootstrap(r, id, email, force)
    case Invites(requester, email, role, token, now) => Invite(r, requester, email, role, token, now)
    case Resends(requester, i, token, now) => Resend(r, requester, i, token, now)
    case Revokes(requester, i) => Revoke(r, requester, i)
    case Accepts(token, id, now) => Accept(r, token, id, now)
    case ChangesRole(requester, target, role) => ChangeRole(r, requester, target, role)
    case SetsActive(requester, target, active) => SetActive(r, requester, target, active)
  }

  ghost function Step(r: Registry, e: Event): Registry {
    if Enabled(r, e) then Do(r, e) else r
  }

  const EMPTY := Registry(map[], [])

  ghost function After(run: seq<Event>): Registry {
    if |run| == 0 then EMPTY else Step(After(run[..|run| - 1]), run[|run| - 1])
  }

  // ── The invariant ───────────────────────────────────────────────────────

  /** Exactly the root admins have no parent; every other one was created by its parent, who came before it. */
  ghost predicate Ranked(admins: map<AdminId, Admin>, rank: map<AdminId, nat>) {
    forall a | a in admins ::
      && a != "" && a in rank && rank[a] < |admins|
      && (admins[a].role == RootAdmin <==> admins[a].parent == None)
      && admins[a].createdBy == admins[a].parent
      && (admins[a].parent.Some? ==>
            var p := admins[a].parent.value; p in admins && p in rank && rank[p] < rank[a])
  }

  ghost predicate Forest(admins: map<AdminId, Admin>) {
    exists rank: map<AdminId, nat> :: Ranked(admins, rank)
  }

  predicate EmailsUnique(admins: map<AdminId, Admin>) {
    forall a, b | a in admins && b in admins && a != b :: admins[a].email != admins[b].email
  }

  /** Invitations come from accounts, never offer the root role, and one an address is open. */
  predicate InvitationsOk(r: Registry) {
    && (forall i | 0 <= i < |r.invitations| ::
          r.invitations[i].role != RootAdmin && r.invitations[i].invitedBy in r.admins)
    && (forall i, j | 0 <= i < j < |r.invitations| ::
          r.invitations[i].status == Pending && r.invitations[j].status == Pending ==>
            r.invitations[i].email != r.invitations[j].email)
  }

  ghost predicate Inv(r: Registry) {
    Forest(r.admins) && EmailsUnique(r.admins) && InvitationsOk(r)
  }

  lemma AddKeepsForest(admins: map<AdminId, Admin>, id: AdminId, admin: Admin)
    requires Forest(admins) && id != "" && id !in admins
    requires admin.role == RootAdmin <==> admin.parent == None
    requires admin.createdBy == admin.parent && (admin.parent.Some? ==> admin.parent.value in admins)
    ensures Forest(admins[id := admin])
  {
    var rank: map<AdminId, nat> :| Ranked(admins, rank);
    assert admins[id := admin].Keys == admins.Keys + {id};
    assert |admins[id := admin]| == |admins| + 1;
    assert Ranked(admins[id := admin], rank[id := |admins|]);
  }

  lemma AddKeepsEmails(admins: map<AdminId, Admin>, id: AdminId, admin: Admin)
    requires EmailsUnique(admins) && id !in admins && !EmailKnown(admins, admin.email)
    ensures EmailsUnique(admins[id := admin])
  {
  }

  lemma SameSize(admins: map<AdminId, Admin>, id: AdminId, admin: Admin)
    requires id in admins
    ensures |admins[id := admin]| == |admins|
  {
    assert admins[id := admin].Keys == admins.Keys;
  }

  lemma EditKeepsForest(admins: map<AdminId, Admin>, id: AdminId, admin: Admin)
    requires Forest(admins) && id in admins
    requires admins[id].role != RootAdmin && admin.role != RootAdmin
    requires admin.parent == admins[id].parent && admin.createdBy == admins[id].createdBy
    ensures Forest(admins[id := admin])
  {
    var rank: map<AdminId, nat> :| Ranked(admins, rank);
    SameSize(admins, id, admin);
    assert Ranked(admins[id := admin], rank);
  }

  lemma EditKeepsEmails(admins: map<AdminId, Admin>, id: AdminId, admin: Admin)
    requires EmailsUnique(admins) && id in admins && admin.email == admins[id].email
    ensures EmailsUnique(admins[id := admin])
  {
  }

  lemma InviteKeeps(r: Registry, requester: AdminId, email: string, role: Role, token: string, now: int)
    requires InvitationsOk(r) && requester in r.admins
    ensures InvitationsOk(Invite(r, requester, email, role, token, now))
    ensures Invite(r, requester, email, role, token, now).admins == r.admins
  {
    hide Lower, EmailKnown;
  }

  lemma CloseInvitation(r: Registry, i: nat, status: InvitationStatus)
    requires InvitationsOk(r) && i < |r.invitations| && status != Pending
    ensures InvitationsOk(WithStatus(r, i, status))
  {
  }

  lemma StepKeeps(r: Registry, e: Event)
    requires Inv(r)
    ensures Inv(Step(r, e))
  {
    hide Forest, EmailsUnique, InvitationsOk, Lower, CanManage, CanDemote, EmailKnown, Invite;
    if Enabled(r, e) {
      match e
      case Bootstraps(id, email, force) =>
        if BootstrapCheck(r, email, force).Done? {
          AddKeepsForest(r.admins, id, Admin(Lower(email), RootAdmin, None, None, true));
          AddKeepsEmails(r.admins, id, Admin(Lower(email), RootAdmin, None, None, true));
          MoreAdmins(r, Do(r, e));
        }
      case Invites(requester, email, role, token, now) => InviteKeeps(r, requester, email, role, token, now);
      case Resends(requester, i, token, now) =>
        if OwnerCheck(r, requester, i).Done? {
          CloseInvitation(r, i, Revoked);
          var invitation := r.invitations[i];
          InviteKeeps(WithStatus(r, i, Revoked), requester, invitation.email, invitation.role, token, now);
        }
      case Revokes(requester, i) =>
        if RevokeCheck(r, requester, i).Done? {
          CloseInvitation(r, i, Revoked);
        }
      case Accepts(token, id, now) => AcceptKeeps(r, token, id, now);
      case ChangesRole(requester, target, role) =>
        if RoleCheck(r, requester, target, role).Done? {
          ManagedAreNotRoot(r.admins, requester, target);
          EditKeepsForest(r.admins, target, r.admins[target].(role := role));
          EditKeepsEmails(r.admins, target, r.admins[target].(role := role));
          MoreAdmins(r, Do(r, e));
        }
      case SetsActive(requester, target, active) =>
        if ManageCheck(r, requester, target).Done? {
          ManagedAreNotRoot(r.admins, requester, target);
          EditKeepsForest(r.admins, target, r.admins[target].(active := active));
          EditKeepsEmails(r.admins, target, r.admins[target].(active := active));
          MoreAdmins(r, Do(r, e));
        }
    }
  }

  lemma MoreAdmins(r: Registry, r': Registry)
    requires InvitationsOk(r) && r'.invitations == r.invitations && r.admins.Keys <= r'.admins.Keys
    ensures InvitationsOk(r')
  {
  }

  lemma ManagedAreNotRoot(admins: map<AdminId, Admin>, requester: AdminId, target: AdminId)
    requires requester in admins && target in admins && CanManage(admins, requester, target)
    ensures admins[target].role != RootAdmin
  {
  }

  lemma AcceptKeeps(r: Registry, token: string, id: AdminId, now: int)
    requires Inv(r) && id != "" && id !in r.admins
    ensures Inv(Accept(r, token, id, now))
  {
    hide Forest, EmailsUnique, EmailKnown;
    match AcceptCheck(r, token, now)
    case Done =>
      var i := FindToken(r.invitations, token).value;
      var invitation := r.invitations[i];
      var admin := Admin(invitation.email, invitation.role, Some(invitation.invitedBy), Some(invitation.invitedBy), true);
      CloseInvitation(r, i, Accepted);
      AddKeepsForest(r.admins, id, admin);
      AddKeepsEmails(r.admins, id, admin);
      MoreAdmins(WithStatus(r, i, Accepted), Accept(r, token, id, now));
    case Raised(TokenExpired) => CloseInvitation(r, FindToken(r.invitations, token).value, Expired);
    case _ =>
  }

  lemma {:induction false} RunKeeps(run: seq<Event>)
    ensures Inv(After(run))
  {
    if |run| == 0 {
      assert Ranked(EMPTY.admins, map[]);
    } else {
      RunKeeps(run[..|run| - 1]);
      StepKeeps(After(run[..|run| - 1]), run[|run| - 1]);
    }
  }

  // ── Lineage in a forest ─────────────────────────────────────────────────

  /** Each step up lowers the rank, and only a root admin has nobody above. */
  lemma {:induction false} AncestorsRank(admins: map<AdminId, Admin>, rank: map<AdminId, nat>, t: AdminId, n: nat)
    requires Ranked(admins, rank) && t in admins
    ensures var a := Ancestor(admins, t, n);
      && (a.Some? ==> a.value in admins && rank[a.value] + n <= rank[t])
      && (a.Some? && n > 0 ==> admins[t].role != RootAdmin && rank[a.value] < rank[t])
  {
    if n > 0 {
      AncestorsRank(admins, rank, t, n - 1);
    }
  }

  lemma {:induction false} AncestorsCompose(admins: map<AdminId, Admin>, t: AdminId, m: nat, n: nat)
    requires Ancestor(admins, t, m).Some?
    ensures Ancestor(admins, t, m + n) == Ancestor(admins, Ancestor(admins, t, m).value, n)
  {
    if n > 0 {
      AncestorsCompose(admins, t, m, n - 1);
    }
  }

  /** In a forest, being below is the same as meeting the other on the way up. */
  lemma BelowIsReached(admins: map<AdminId, Admin>, a: AdminId, t: AdminId)
    requires Forest(admins) && t in admins
    ensures Descends(admins, a, t) <==> Reaches(admins, a, t)
    ensures Reaches(admins, a, t) ==> a in admins && a != t && admins[t].role != RootAdmin
  {
    var rank: map<AdminId, nat> :| Ranked(admins, rank);
    if Reaches(admins, a, t) {
      var n: nat :| n >= 1 && Ancestor(admins, t, n) == Some(a);
      AncestorsRank(admins, rank, t, n);
    }
  }

  lemma ReachesTransitive(admins: map<AdminId, Admin>, a: AdminId, b: AdminId, c: AdminId)
    requires Reaches(admins, a, b) && Reaches(admins, b, c)
    ensures Reaches(admins, a, c)
  {
    var m: nat :| m >= 1 && Ancestor(admins, c, m) == Some(b);
    var n: nat :| n >= 1 && Ancestor(admins, b, n) == Some(a);
    AncestorsCompose(admins, c, m, n);
  }

  /** Managing means being a root admin, or being met on the way up; the target is never a root admin. */
  lemma ManagesWhen(admins: map<AdminId, Admin>, a: AdminId, t: AdminId)
    requires Forest(admins) && a in admins && t in admins
    ensures CanManage(admins, a, t) <==>
      admins[t].role != RootAdmin && (admins[a].role == RootAdmin || Reaches(admins, a, t))
  {
    BelowIsReached(admins, a, t);
    if admins[t].parent == Some(a) {
      var rank: map<AdminId, nat> :| Ranked(admins, rank);
      assert Ancestor(admins, t, 0) == Some(t) && Ancestor(admins, t, 1) == Some(a);
    }
    hide Ancestor, Forest;
  }

  // ── The promises ────────────────────────────────────────────────────────

  /** In every reachable state, authority is irreflexive and antisymmetric. */
  lemma AuthorityIsAsymmetric(run: seq<Event>, a: AdminId, b: AdminId)
    requires a in After(run).admins && b in After(run).admins && CanManage(After(run).admins, a, b)
    ensures a != b && !CanManage(After(run).admins, b, a)
  {
    RunKeeps(run);
    var admins := After(run).admins;
    ManagesWhen(admins, a, b);
    ManagesWhen(admins, b, a);
    if Reaches(admins, a, b) && Reaches(admins, b, a) {
      ReachesTransitive(admins, a, b, a);
    }
    BelowIsReached(admins, a, a);
    hide Reaches, Forest, After, Inv;
  }

  /** In every reachable state, authority is transitive. */
  lemma AuthorityIsTransitive(run: seq<Event>, a: AdminId, b: AdminId, c: AdminId)
    requires a in After(run).admins && b in After(run).admins && c in After(run).admins
    requires CanManage(After(run).admins, a, b) && CanManage(After(run).admins, b, c)
    ensures CanManage(After(run).admins, a, c)
  {
    RunKeeps(run);
    var admins := After(run).admins;
    ManagesWhen(admins, a, b);
    ManagesWhen(admins, b, c);
    ManagesWhen(admins, a, c);
    if Reaches(admins, a, b) && Reaches(admins, b, c) {
      ReachesTransitive(admins, a, b, c);
    }
    hide Reaches, Forest, After, Inv, CanManage;
  }

  /** In every reachable state, whoever may demote an account may also manage it. */
  lemma DemotersManage(run: seq<Event>, a: AdminId, t: AdminId)
    requires a in After(run).admins && t in After(run).admins && CanDemote(After(run).admins, a, t)
    ensures CanManage(After(run).admins, a, t)
  {
    RunKeeps(run);
    var admins := After(run).admins;
    var rank: map<AdminId, nat> :| Ranked(admins, rank);
    hide Reaches, After;
  }

  /** Every account below the top has exactly one root admin above it. */
  lemma OneRootAbove(run: seq<Event>, t: AdminId)
    requires t in After(run).admins && After(run).admins[t].role != RootAdmin
    ensures exists a | a in After(run).admins && After(run).admins[a].role == RootAdmin :: Reaches(After(run).admins, a, t)
    ensures forall a, b | a in After(run).admins && b in After(run).admins
                          && After(run).admins[a].role == RootAdmin && After(run).admins[b].role == RootAdmin ::
      Reaches(After(run).admins, a, t) && Reaches(After(run).admins, b, t) ==> a == b
  {
    RunKeeps(run);
    var admins := After(run).admins;
    var rank: map<AdminId, nat> :| Ranked(admins, rank);
    var top := RootAbove(admins, rank, t);
    forall a, b | a in admins && b in admins && admins[a].role == RootAdmin && admins[b].role == RootAdmin
                  && Reaches(admins, a, t) && Reaches(admins, b, t)
      ensures a == b
    {
      RootsMeet(admins, rank, a, b, t);
    }
  }

  lemma {:induction false} RootAbove(admins: map<AdminId, Admin>, rank: map<AdminId, nat>, t: AdminId) returns (top: AdminId)
    requires Ranked(admins, rank) && t in admins && admins[t].role != RootAdmin
    ensures top in admins && admins[top].role == RootAdmin && Reaches(admins, top, t)
    decreases rank[t]
  {
    var p := admins[t].parent.value;
    assert Ancestor(admins, t, 0) == Some(t) && Ancestor(admins, t, 1) == Some(p);
    if admins[p].role == RootAdmin {
      top := p;
    } else {
      top := RootAbove(admins, rank, p);
      ReachesTransitive(admins, top, p, t);
    }
  }

  lemma RootsMeet(admins: map<AdminId, Admin>, rank: map<AdminId, nat>, a: AdminId, b: AdminId, t: AdminId)
    requires Ranked(admins, rank) && a in admins && b in admins
    requires admins[a].role == RootAdmin && admins[b].role == RootAdmin
    requires Reaches(admins, a, t) && Reaches(admins, b, t)
    ensures a == b
  {
    var m: nat :| m >= 1 && Ancestor(admins, t, m) == Some(a);
    var n: nat :| n >= 1 && Ancestor(admins, t, n) == Some(b);
    if m <= n {
      AncestorsCompose(admins, t, m, n - m);
      AncestorsRank(admins, rank, a, n - m);
    } else {
      AncestorsCompose(admins, t, n, m - n);
      AncestorsRank(admins, rank, b, m - n);
    }
  }

  function RootsOf(admins: map<AdminId, Admin>): map<AdminId, Admin> {
    map a | a in admins && admins[a].role == RootAdmin :: admins[a]
  }

  /**
   No service call touches a root admin or makes one: only the command line does, when no root
   admin is active or when it is forced, and then exactly one active one is added.
   */
  lemma RootsAreFixed(run: seq<Event>, e: Event)
    ensures var r := After(run);
            if e.Bootstraps? && Enabled(r, e) && BootstrapCheck(r, e.email, e.force).Done?
            then RootsOf(Step(r, e).admins) == RootsOf(r.admins)[e.id := Admin(Lower(e.email), RootAdmin, None, None, true)]
            else RootsOf(Step(r, e).admins) == RootsOf(r.admins)
  {
    RunKeeps(run);
    hide After, Forest, EmailsUnique, Lower, EmailKnown, Descends, CanDemote, BootstrapCheck;
  }

  /** An account changes only through somebody with authority over it, and never loses its place. */
  lemma OnlySuperiorsChange(r: Registry, e: Event, t: AdminId)
    requires t in r.admins
    ensures t in Step(r, e).admins
    ensures Step(r, e).admins[t].parent == r.admins[t].parent
    ensures Step(r, e).admins[t] != r.admins[t] ==>
      && (e.ChangesRole? || e.SetsActive?) && e.target == t
      && e.requester in r.admins && CanManage(r.admins, e.requester, t)
  {
    hide Forest, EmailsUnique, Lower, EmailKnown, Descends, CanDemote, BootstrapCheck, CanManage;
  }

  predicate Spent(r: Registry, token: string) {
    var i := FindToken(r.invitations, token);
    i.Some? && r.invitations[i.value].status != Pending
  }

  lemma {:induction false} FoundStays(a: seq<Invitation>, b: seq<Invitation>, token: string)
    requires |a| <= |b| && forall i | 0 <= i < |a| :: b[i].token == a[i].token
    requires FindToken(a, token).Some?
    ensures FindToken(b, token) == FindToken(a, token)
  {
    if |b| > |a| {
      FoundStays(a, b[..|b| - 1], token);
    } else {
      var n := |a| - 1;
      if FindToken(a[..n], token).Some? {
        FoundStays(a[..n], b[..n], token);
      } else {
        NotFoundStays(a[..n], b[..n], token);
      }
    }
  }

  lemma {:induction false} NotFoundStays(a: seq<Invitation>, b: seq<Invitation>, token: string)
    requires |a| == |b| && forall i | 0 <= i < |a| :: b[i].token == a[i].token
    requires FindToken(a, token) == None
    ensures FindToken(b, token) == None
  {
    if |b| > 0 {
      NotFoundStays(a[..|a| - 1], b[..|b| - 1], token);
    }
  }

  /** Invitation rows keep their place and token, and never become pending again. */
  lemma InvitationsAge(r: Registry, e: Event)
    ensures |r.invitations| <= |Step(r, e).invitations|
    ensures forall i | 0 <= i < |r.invitations| ::
      && Step(r, e).invitations[i].token == r.invitations[i].token
      && (Step(r, e).invitations[i].status == Pending ==> r.invitations[i].status == Pending)
  {
    hide Lower, EmailKnown, CanManage, CanDemote, BootstrapCheck;
  }

  lemma SpentStays(r: Registry, e: Event, token: string)
    requires Spent(r, token)
    ensures Spent(Step(r, e), token)
  {
    InvitationsAge(r, e);
    hide Step;
    FoundStays(r.invitations, Step(r, e).invitations, token);
  }

  lemma AcceptSpends(r: Registry, token: string, id: AdminId, now: int)
    requires AcceptCheck(r, token, now).Done?
    ensures Spent(Accept(r, token, id, now), token)
  {
    FoundStays(r.invitations, Accept(r, token, id, now).invitations, token);
    hide EmailKnown;
  }

  /** A token makes one account at most: once accepted, it is refused ever after. */
  lemma {:induction false} TokenUsedOnce(run: seq<Event>, more: seq<Event>, token: string, id: AdminId, now: int)
    requires AcceptCheck(After(run), token, now).Done? && Enabled(After(run), Accepts(token, id, now))
    ensures Spent(After(run + [Accepts(token, id, now)] + more), token)
    ensures forall later: int :: !AcceptCheck(After(run + [Accepts(token, id, now)] + more), token, later).Done?
  {
    var used := run + [Accepts(token, id, now)];
    if |more| == 0 {
      assert used + more == used && used[..|used| - 1] == run;
      AcceptSpends(After(run), token, id, now);
      hide After, Accept, AcceptCheck;
    } else {
      var last := |more| - 1;
      TokenUsedOnce(run, more[..last], token, id, now);
      assert (used + more)[..|used + more| - 1] == used + more[..last];
      SpentStays(After(used + more[..last]), more[last], token);
    }
  }

  lemma SameEmails(admins: map<AdminId, Admin>, id: AdminId, admin: Admin, email: string)
    requires id in admins && admin.email == admins[id].email
    ensures EmailKnown(admins[id := admin], email) <==> EmailKnown(admins, email)
  {
    if EmailKnown(admins, email) {
      var a :| a in admins && admins[a].email == email;
      assert admins[id := admin][a].email == email;
    }
    if EmailKnown(admins[id := admin], email) {
      var a :| a in admins[id := admin] && admins[id := admin][a].email == email;
      assert admins[a].email == email;
    }
  }

  /** A role change, or a deactivation, of the inviter leaves his open invitations as good as they were. */
  lemma InvitationsOutliveAuthority(r: Registry, e: Event, token: string, now: int)
    requires e.ChangesRole? || e.SetsActive?
    ensures AcceptCheck(Step(r, e), token, now) == AcceptCheck(r, token, now)
  {
    var found := FindToken(r.invitations, token);
    if found.Some? && e.target in r.admins {
      var row := r.admins[e.target];
      SameEmails(r.admins, e.target, if e.ChangesRole? then row.(role := e.role) else row.(active := e.active),
                 r.invitations[found.value].email);
    }
    hide CanManage, CanDemote, EmailKnown;
  }

  /** Resending ends the old invitation even when no new one is made. */
  lemma ResendAlwaysRevokes(r: Registry, requester: AdminId, i: nat, token: string, now: int)
    requires requester in r.admins && OwnerCheck(r, requester, i).Done?
    ensures Resend(r, requester, i, token, now).invitations[i].status == Revoked
    ensures |Resend(r, requester, i, token, now).invitations| ==
      |r.invitations| + (if ResendCheck(r, requester, i).Done? then 1 else 0)
  {
    hide EmailKnown, Lower;
  }

  // ── An inviter who has lost his authority ───────────────────────────────

  lemma AfterSnoc(run: seq<Event>, e: Event)
    ensures After(run + [e]) == Step(After(run), e)
  {
    assert (run + [e])[..|run + [e]| - 1] == run;
  }

  const ROOT := Admin("a", RootAdmin, None, None, true)
  const SUPER := Admin("b", SuperAdmin, Some("root"), Some("root"), true)
  const FIRST := Invitation("b", SuperAdmin, "root", "t", Pending, INVITATION_SECONDS)
  const SECOND := Invitation("c", Operations, "super", "u", Pending, INVITATION_SECONDS)

  /** The root admin takes in a super admin, who invites a third person and is then demoted. */
  const DEMOTED: seq<Event> :=
    [Bootstraps("root", "a", false)] + [Invites("root", "b", SuperAdmin, "t", 0)] + [Accepts("t", "super", 0)]
    + [Invites("super", "c", Operations, "u", 0)] + [ChangesRole("root", "super", Support)]

  lemma Letters()
    ensures Lower("a") == "a" && Lower("b") == "b" && Lower("c") == "c"
  {
  }

  lemma RootInvites()
    ensures Step(EMPTY, Bootstraps("root", "a", false)) == Registry(map["root" := ROOT], [])
    ensures Step(Registry(map["root" := ROOT], []), Invites("root", "b", SuperAdmin, "t", 0))
      == Registry(map["root" := ROOT], [FIRST])
  {
    Letters();
    hide Lower;
    assert map["root" := ROOT]["root"].email == "a" && "a"[0] != "b"[0];
  }

  lemma SuperAccepts()
    ensures Step(Registry(map["root" := ROOT], [FIRST]), Accepts("t", "super", 0))
      == Registry(map["root" := ROOT, "super" := SUPER], [FIRST.(status := Accepted)])
  {
    assert |"root"| != |"super"|;
    assert FindToken([FIRST][..0], "t") == None;
    assert FindToken([FIRST], "t") == Some(0);
    assert "a"[0] != "b"[0];
  }

  lemma SuperInvites()
    ensures Step(Registry(map["root" := ROOT, "super" := SUPER], [FIRST.(status := Accepted)]),
                 Invites("super", "c", Operations, "u", 0))
      == Registry(map["root" := ROOT, "super" := SUPER], [FIRST.(status := Accepted), SECOND])
  {
    Letters();
    hide Lower;
    assert "a"[0] != "c"[0] && "b"[0] != "c"[0];
  }

  lemma RootDemotes()
    ensures Step(Registry(map["root" := ROOT, "super" := SUPER], [FIRST.(status := Accepted), SECOND]),
                 ChangesRole("root", "super", Support))
      == Registry(map["root" := ROOT, "super" := SUPER.(role := Support)], [FIRST.(status := Accepted), SECOND])
  {
    hide Descends;
    assert |"root"| != |"super"|;
  }

  lemma DemotedState()
    ensures After(DEMOTED)
      == Registry(map["root" := ROOT, "super" := SUPER.(role := Support)], [FIRST.(status := Accepted), SECOND])
  {
    var run1 := [Bootstraps("root", "a", false)];
    var run2 := run1 + [Invites("root", "b", SuperAdmin, "t", 0)];
    var run3 := run2 + [Accepts("t", "super", 0)];
    AfterSnoc([], run1[0]);
    assert [] + [run1[0]] == run1;
    AfterSnoc(run1, Invites("root", "b", SuperAdmin, "t", 0));
    AfterSnoc(run2, Accepts("t", "super", 0));
    AfterSnoc(run3, Invites("super", "c", Operations, "u", 0));
    AfterSnoc(run3 + [Invites("super", "c", Operations, "u", 0)], ChangesRole("root", "super", Support));
    RootInvites();
    SuperAccepts();
    SuperInvites();
    RootDemotes();
    hide Step;
  }

  /** Though the demoted inviter may invite nobody now, his open invitation still makes an account below him. */
  lemma DemotedInviterStillAdmits()
    ensures var r := After(DEMOTED);
      && "super" in r.admins && !CanInvite(r.admins["super"].role, Operations)
      && AcceptCheck(r, "u", 0).Done? && Enabled(r, Accepts("u", "new", 0))
      && After(DEMOTED + [Accepts("u", "new", 0)]).admins
         == r.admins["new" := Admin("c", Operations, Some("super"), Some("super"), true)]
  {
    DemotedState();
    AfterSnoc(DEMOTED, Accepts("u", "new", 0));
    var rows := [FIRST.(status := Accepted), SECOND];
    assert rows[..1] == [FIRST.(status := Accepted)] && rows[..1][..0] == [];
    assert "t"[0] != "u"[0];
    assert FindToken(rows[..1], "u") == None;
    assert FindToken(rows, "u") == Some(1);
    assert "a"[0] != "c"[0] && "b"[0] != "c"[0];
    assert |"new"| != |"root"| && |"new"| != |"super"|;
    hide After;
  }
}
