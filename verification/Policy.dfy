/** Who may do what, written out on the rows: for every endpoint the answer and the write of each
    request, by the role the caller's own membership carries. */
module Policy {
  import opened Models
  import opened Rbac
  import opened Billing
  import opened Requests
  import opened Invariants

  /** The user has a membership with this role. */
  ghost predicate Holds(s: State, user: nat, org: nat, role: Role) {
    exists pk :: pk in s.members && s.members[pk] == Scoped(org, Membership(user, role))
  }

  ghost predicate Outside(s: State, user: nat, org: nat) {
    forall pk :: pk in s.members ==> !(s.members[pk].org == org && s.members[pk].row.user == user)
  }

  /** An Owner manages and grants every role, an Admin every role but Owner, a Member none. */
  predicate MayHandle(mine: Role, role: Role) {
    match mine
    case Owner => true
    case Admin => role != Owner
    case Member => false
  }

  /** The table is all of one organization's rows and nothing else. */
  ghost predicate RowsOf<T(!new)>(rows: Table<T>, table: Table<T>, org: nat) {
    forall pk :: (pk in rows <==> pk in table && table[pk].org == org) && (pk in rows ==> rows[pk] == table[pk])
  }

  ghost predicate OnlyOwner(s: State, member: nat)
    requires member in s.members
  {
    && s.members[member].row.role == Owner
    && forall pk :: pk in s.members && s.members[pk].org == s.members[member].org && s.members[pk].row.role == Owner ==>
         pk == member
  }

  lemma RoleOf(s: State, user: nat, org: nat, role: Role)
    requires UniqueMembers(s.users, s.members) && Holds(s, user, org, role)
    ensures CallerRole(s.members, user, org) == Some(role)
  {
    var pk :| pk in s.members && s.members[pk] == Scoped(org, Membership(user, role));
    assert pk in UserKeys(s.members, user, org);
  }

  lemma NoRole(s: State, user: nat, org: nat)
    requires Outside(s, user, org)
    ensures CallerRole(s.members, user, org) == None
  {
    assert UserKeys(s.members, user, org) == {};
  }

  /** Whoever has a membership has one role. */
  lemma SomeRole(s: State, user: nat, org: nat)
    requires UniqueMembers(s.users, s.members)
    ensures Outside(s, user, org) || exists role :: Holds(s, user, org, role)
    ensures forall r, q :: Holds(s, user, org, r) && Holds(s, user, org, q) ==> r == q
  {
    if !Outside(s, user, org) {
      var pk :| pk in s.members && s.members[pk].org == org && s.members[pk].row.user == user;
      assert Holds(s, user, org, s.members[pk].row.role);
    }
  }

  /** The rank comparisons come to the rule written out. */
  lemma HandledExactly(mine: Role, role: Role)
    ensures CanManageMember(mine, role) <==> MayHandle(mine, role)
    ensures CanAssignRole(mine, role) <==> MayHandle(mine, role)
    ensures IsManager(mine) <==> mine != Member
  {
  }

  lemma LastExactly(s: State, member: nat)
    requires member in s.members
    ensures IsLastOwner(s.members, member) <==> OnlyOwner(s, member)
  {
    var keys := OwnerKeys(s.members, s.members[member].org);
    if IsLastOwner(s.members, member) {
      var rest := keys - {member};
      assert member in keys && |rest| == |keys| - 1;
      assert rest == {};
      forall pk | pk in s.members && s.members[pk].org == s.members[member].org && s.members[pk].row.role == Owner
        ensures pk == member
      {
        assert pk in keys && pk !in rest;
      }
    }
    if OnlyOwner(s, member) {
      assert member in keys && forall pk :: pk in keys ==> pk == member;
      assert keys == {member};
    }
  }

  /* ----- outsiders ----- */

  /** The request names the organization in its path. */
  predicate ByPath(r: Request, org: nat) {
    match r
    case UpdateOrg(_, o, _) => o == org
    case DestroyOrg(_, o) => o == org
    case ListMembers(_, o) => o == org
    case ChangeRole(_, o, _, _) => o == org
    case RemoveMember(_, o, _) => o == org
    case ListInvitations(_, o) => o == org
    case Invite(_, o, _, _, _, _, _) => o == org
    case _ => false
  }

  /** The request is for projects, with this header. */
  predicate ByHeader(r: Request, header: Option<nat>) {
    match r
    case ListProjects(_, h) => h == header
    case GetProject(_, h, _) => h == header
    case CreateProject(_, h, _, _) => h == header
    case UpdateProject(_, h, _, _) => h == header
    case DestroyProject(_, h, _) => h == header
    case _ => false
  }

  /** Someone without a membership is told that the organization named in a path does not exist, and
      is refused the organization named in a header; nothing is written. */
  lemma OutsidersGetNothing(s: State, r: Request, org: nat)
    requires !r.Deliver? && r.actor in s.users && Outside(s, r.actor, org)
    ensures ByPath(r, org) ==> Decide(s, r) == Decision(Nothing, NotFound)
    ensures ByHeader(r, Some(org)) ==> Decide(s, r) == Decision(Nothing, Forbidden)
  {
    NoRole(s, r.actor, org);
  }

  /** Nobody gets projects without naming an organization, and an unknown user gets nothing at all. */
  lemma NamelessGetNothing(s: State, r: Request)
    requires !r.Deliver?
    ensures r.actor !in s.users ==> Decide(s, r) == Decision(Nothing, Unauthorized)
    ensures r.actor in s.users && ByHeader(r, None) ==> Decide(s, r) == Decision(Nothing, Forbidden)
  {
  }

  /* ----- reading ----- */

  /** Members read exactly the organization's own rows; its invitations only Owners and Admins. */
  lemma MembersRead(s: State, actor: nat, org: nat, mine: Role, project: nat)
    requires UniqueMembers(s.users, s.members) && actor in s.users && Holds(s, actor, org, mine)
    ensures var d := Decide(s, ListProjects(actor, Some(org)));
            d.change == Nothing && d.answer.Projects? && RowsOf(d.answer.projects, s.projects, org)
    ensures Decide(s, GetProject(actor, Some(org), project)) ==
            Decision(Nothing, if project in s.projects && s.projects[project].org == org
                              then ProjectBody(project, s.projects[project].row) else NotFound)
    ensures var d := Decide(s, ListMembers(actor, org));
            d.change == Nothing && d.answer.Members? && RowsOf(d.answer.members, s.members, org)
    ensures var d := Decide(s, ListInvitations(actor, org));
            && d.change == Nothing
            && if mine == Member then d.answer == Forbidden
               else d.answer.Invitations? && RowsOf(d.answer.invitations, s.invites, org)
  {
    RoleOf(s, actor, org, mine);
  }

  /* ----- organizations ----- */

  /** Owners and Admins rename an organization, and nothing else about it changes. */
  lemma Renaming(s: State, actor: nat, org: nat, mine: Role, name: string)
    requires UniqueMembers(s.users, s.members) && Homed(s.orgs, s.members) && actor in s.users
    requires Holds(s, actor, org, mine)
    ensures var r := UpdateOrg(actor, org, name);
            if mine == Member then Decide(s, r) == Decision(Nothing, Forbidden)
            else if name == "" then Decide(s, r) == Decision(Nothing, BadRequest(InvalidPayload))
            else
              && org in s.orgs
              && Decide(s, r).answer == OrgBody(org, Organization(name, s.orgs[org].slug, s.orgs[org].createdBy))
              && Next(s, r) == s.(orgs := s.orgs[org := Organization(name, s.orgs[org].slug, s.orgs[org].createdBy)])
  {
    RoleOf(s, actor, org, mine);
  }

  /** Only Owners delete an organization; it goes with all its rows, and every other row stays. */
  lemma Deleting(s: State, actor: nat, org: nat, mine: Role)
    requires UniqueMembers(s.users, s.members) && actor in s.users && Holds(s, actor, org, mine)
    ensures var r, t := DestroyOrg(actor, org), Next(s, DestroyOrg(actor, org));
            if mine != Owner then Decide(s, r) == Decision(Nothing, Forbidden)
            else
              && Decide(s, r).answer == NoContent && t.orgs == s.orgs - {org} && t.ledger == s.ledger
              && Others(t.members, s.members, org) && Others(t.invites, s.invites, org)
              && Others(t.projects, s.projects, org) && Others(t.subs, s.subs, org)
  {
    RoleOf(s, actor, org, mine);
  }

  /** All rows but those of the organization, as they were. */
  ghost predicate Others<T(!new)>(rows: Table<T>, table: Table<T>, org: nat) {
    forall pk :: (pk in rows <==> pk in table && table[pk].org != org) && (pk in rows ==> rows[pk] == table[pk])
  }

  /** Creating one takes a name, and the first free slug; its creator becomes its Owner. */
  lemma Creating(s: State, actor: nat, name: string, base: string, pk: nat)
    requires actor in s.users
    ensures var r := CreateOrg(actor, name, base, pk);
            if name == "" then Decide(s, r) == Decision(Nothing, BadRequest(InvalidPayload))
            else
              && Decide(s, r).answer.OrgBody?
              && (forall o :: o in s.orgs ==> s.orgs[o].slug != Decide(s, r).answer.org.slug)
              && Decide(s, r).answer == OrgBody(pk, Organization(name, Decide(s, r).answer.org.slug, actor))
              && Next(s, r).orgs == s.orgs[pk := Decide(s, r).answer.org]
              && Next(s, r).members == s.members[pk := Scoped(pk, Membership(actor, Owner))]
  {
    assert forall o :: o in s.orgs ==> s.orgs[o].slug in TakenSlugs(s.orgs);
  }

  /* ----- members ----- */

  /** The row with this number is a membership of the organization. */
  predicate Belongs<T>(table: Table<T>, pk: nat, org: nat) {
    pk in table && table[pk].org == org
  }

  /** A role changes exactly when the caller may handle both the target's role and the new one,
      and the organization keeps an Owner; nothing else changes. */
  lemma ChangingRoles(s: State, actor: nat, org: nat, mine: Role, member: nat, role: Option<Role>)
    requires UniqueMembers(s.users, s.members) && actor in s.users && Holds(s, actor, org, mine)
    ensures var r := ChangeRole(actor, org, member, role);
            if !Belongs(s.members, member, org) then Decide(s, r) == Decision(Nothing, NotFound)
            else
              var target := s.members[member].row;
              if !MayHandle(mine, target.role) then Decide(s, r) == Decision(Nothing, Forbidden)
              else if role.None? then Decide(s, r) == Decision(Nothing, BadRequest(InvalidPayload))
              else if !MayHandle(mine, role.value) then Decide(s, r) == Decision(Nothing, Forbidden)
              else if OnlyOwner(s, member) && role.value != Owner then
                Decide(s, r) == Decision(Nothing, BadRequest(LastOwnerDemoted))
              else
                && Decide(s, r).answer == MemberBody(member, Membership(target.user, role.value))
                && Next(s, r) == s.(members := s.members[member := Scoped(org, Membership(target.user, role.value))])
  {
    RoleOf(s, actor, org, mine);
    if Belongs(s.members, member, org) {
      HandledExactly(mine, s.members[member].row.role);
      LastExactly(s, member);
      if role.Some? {
        HandledExactly(mine, role.value);
      }
    }
  }

  /** A member is removed exactly when the caller may handle their role and the organization keeps
      an Owner; nothing else changes. */
  lemma RemovingMembers(s: State, actor: nat, org: nat, mine: Role, member: nat)
    requires UniqueMembers(s.users, s.members) && actor in s.users && Holds(s, actor, org, mine)
    ensures var r := RemoveMember(actor, org, member);
            if !Belongs(s.members, member, org) then Decide(s, r) == Decision(Nothing, NotFound)
            else if !MayHandle(mine, s.members[member].row.role) then Decide(s, r) == Decision(Nothing, Forbidden)
            else if OnlyOwner(s, member) then Decide(s, r) == Decision(Nothing, BadRequest(LastOwnerRemoved))
            else Decide(s, r).answer == NoContent && Next(s, r) == s.(members := s.members - {member})
  {
    RoleOf(s, actor, org, mine);
    if Belongs(s.members, member, org) {
      HandledExactly(mine, s.members[member].row.role);
      LastExactly(s, member);
    }
  }

  /* ----- projects ----- */

  /** Owners, Admins and its creator write a project. */
  predicate MayWrite(s: State, actor: nat, mine: Role, project: nat)
    requires project in s.projects
  {
    mine == Owner || mine == Admin || s.projects[project].row.createdBy == actor
  }

  lemma EditingProjects(s: State, actor: nat, org: nat, mine: Role, project: nat, name: string)
    requires UniqueMembers(s.users, s.members) && actor in s.users && Holds(s, actor, org, mine)
    ensures var r := UpdateProject(actor, Some(org), project, name);
            if !Belongs(s.projects, project, org) then Decide(s, r) == Decision(Nothing, NotFound)
            else if !MayWrite(s, actor, mine, project) then Decide(s, r) == Decision(Nothing, Forbidden)
            else if name == "" then Decide(s, r) == Decision(Nothing, BadRequest(InvalidPayload))
            else
              var row := Project(name, s.projects[project].row.createdBy);
              && Decide(s, r).answer == ProjectBody(project, row)
              && Next(s, r) == s.(projects := s.projects[project := Scoped(org, row)])
  {
    RoleOf(s, actor, org, mine);
  }

  lemma DeletingProjects(s: State, actor: nat, org: nat, mine: Role, project: nat)
    requires UniqueMembers(s.users, s.members) && actor in s.users && Holds(s, actor, org, mine)
    ensures var r := DestroyProject(actor, Some(org), project);
            if !Belongs(s.projects, project, org) then Decide(s, r) == Decision(Nothing, NotFound)
            else if !MayWrite(s, actor, mine, project) then Decide(s, r) == Decision(Nothing, Forbidden)
            else Decide(s, r).answer == NoContent && Next(s, r) == s.(projects := s.projects - {project})
  {
    RoleOf(s, actor, org, mine);
  }
}
