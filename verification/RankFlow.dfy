/** Privilege cannot flow upwards: what actors below a rank can do to that rank and above. */
module RankFlow {
  import opened Models
  import opened Rbac
  import opened Requests
  import opened Invariants
  import opened Seats

  /** The rank a user acts with in an organization; 0 for someone who is no member. */
  function ActorRank(s: State, actor: nat, org: nat): nat {
    match CallerRole(s.members, actor, org)
    case None => 0
    case Some(role) => Rank(role)
  }

  function HighMembers(members: Table<Membership>, org: nat, rank: nat): set<nat> {
    set pk | pk in members && members[pk].org == org && Rank(members[pk].row.role) >= rank
  }

  function HighInvites(invites: Table<Invitation>, org: nat, rank: nat): set<nat> {
    set pk | pk in PendingKeys(invites, org) && Rank(invites[pk].row.role) >= rank
  }

  /** Memberships of at least `rank`, plus pending invitations that would become such. */
  function Privilege(s: State, org: nat, rank: nat): nat {
    |HighMembers(s.members, org, rank)| + |HighInvites(s.invites, org, rank)|
  }

  /** Every high membership is still there, with the very same role. */
  ghost predicate HighKept(s: State, t: State, org: nat, rank: nat) {
    forall pk :: pk in HighMembers(s.members, org, rank) ==> pk in t.members && t.members[pk] == s.members[pk]
  }

  /** Every user who acts in the run does so with less than `rank` in the organization. */
  predicate LowRun(s: State, org: nat, rank: nat, rs: seq<Request>)
    decreases |rs|
  {
    rs == [] ||
    (&& (rs[0].Deliver? || ActorRank(s, rs[0].actor, org) < rank)
     && LowRun(Next(s, rs[0]), org, rank, rs[1..]))
  }

  /** A low actor's write to the members leaves the high ones alone. */
  lemma LowMemberWrite(s: State, bound: nat, actor: nat, c: Change, org: nat, rank: nat)
    requires Below(s, bound) && FreshIn(bound, c) && Justified(s, actor, c) && org < bound && rank <= 3
    requires ActorRank(s, actor, org) < rank
    ensures HighKept(s, Apply(s, c), org, rank)
    ensures !c.Joined? ==> HighMembers(Apply(s, c).members, org, rank) == HighMembers(s.members, org, rank)
  {
    var t := Apply(s, c);
    if c.RoleSaved? && c.org == org {
      var role :| ActsAs(s, actor, org, role) && CanManageMember(role, s.members[c.member].row.role)
                  && CanAssignRole(role, c.membership.role);
      assert Rank(s.members[c.member].row.role) < rank && Rank(c.membership.role) < rank;
    } else if c.MemberRemoved? && s.members[c.member].org == org {
      var role :| ActsAs(s, actor, org, role) && CanManageMember(role, s.members[c.member].row.role);
      assert Rank(s.members[c.member].row.role) < rank;
    }
  }

  /** A low actor's write adds no high pending invitation, and an acceptance moves one at most. */
  lemma LowInviteWrite(s: State, bound: nat, actor: nat, c: Change, org: nat, rank: nat)
    requires Below(s, bound) && FreshIn(bound, c) && Justified(s, actor, c) && org < bound && rank <= 3
    requires ActorRank(s, actor, org) < rank
    ensures var after := HighInvites(Apply(s, c).invites, org, rank);
            after <= HighInvites(s.invites, org, rank) && (c.Joined? ==> c.key !in after)
  {
    if c.Invited? && c.org == org {
      var role :| ActsAs(s, actor, org, role) && CanAssignRole(role, c.invitation.role);
      assert Rank(c.invitation.role) < rank;
    }
  }

  lemma HighMembersJoined(members: Table<Membership>, pk: nat, o: nat, row: Membership, org: nat, rank: nat)
    requires pk !in members
    ensures HighMembers(members[pk := Scoped(o, row)], org, rank) ==
            HighMembers(members, org, rank) + if o == org && Rank(row.role) >= rank then {pk} else {}
  {
  }

  lemma HighInvitesSpent(invites: Table<Invitation>, key: nat, spent: Invitation, org: nat, rank: nat)
    requires key in invites && spent.status != Pending
    ensures HighInvites(invites[key := Scoped(invites[key].org, spent)], org, rank) ==
            HighInvites(invites, org, rank) - {key}
  {
  }

  /** An acceptance turns a high pending invitation into a high membership, or neither is high. */
  lemma LowJoin(s: State, actor: nat, c: Change, org: nat, rank: nat)
    requires Justified(s, actor, c) && c.Joined? && c.pk !in s.members
    ensures Privilege(Apply(s, c), org, rank) == Privilege(s, org, rank)
  {
    LowJoinSets(s, actor, c, org, rank);
  }

  lemma LowJoinSets(s: State, actor: nat, c: Change, org: nat, rank: nat)
    requires Justified(s, actor, c) && c.Joined? && c.pk !in s.members
    ensures var moves := c.org == org && Rank(c.spent.role) >= rank;
            var members, invites := HighMembers(s.members, org, rank), HighInvites(s.invites, org, rank);
            && c.pk !in members && (moves ==> c.key in invites)
            && HighMembers(Apply(s, c).members, org, rank) == members + (if moves then {c.pk} else {})
            && HighInvites(Apply(s, c).invites, org, rank) == invites - (if moves then {c.key} else {})
  {
    HighMembersJoined(s.members, c.pk, c.org, c.membership, org, rank);
    HighInvitesSpent(s.invites, c.key, c.spent, org, rank);
  }

  lemma LowWrite(s: State, bound: nat, actor: nat, c: Change, org: nat, rank: nat)
    requires Below(s, bound) && FreshIn(bound, c) && Justified(s, actor, c) && org < bound && rank <= 3
    requires ActorRank(s, actor, org) < rank
    ensures Privilege(Apply(s, c), org, rank) <= Privilege(s, org, rank)
    ensures HighKept(s, Apply(s, c), org, rank)
  {
    LowMemberWrite(s, bound, actor, c, org, rank);
    if c.Joined? {
      LowJoin(s, actor, c, org, rank);
    } else {
      LowInviteWrite(s, bound, actor, c, org, rank);
      Smaller(HighInvites(Apply(s, c).invites, org, rank), HighInvites(s.invites, org, rank));
    }
  }

  lemma EventWrite(s: State, r: Request, org: nat, rank: nat)
    requires r.Deliver?
    ensures Privilege(Next(s, r), org, rank) == Privilege(s, org, rank)
    ensures HighKept(s, Next(s, r), org, rank)
  {
    assert DoDeliver(s, r.event, r.crash).change in {Nothing, Recorded(r.event)};
  }

  /** Along any run whose actors all rank below `rank` in an organization, its privilege of that
      rank never grows, acceptances included, and no membership of that rank is removed,
      demoted or otherwise changed. */
  lemma {:induction false} RankFlowBound(s: State, bound: nat, org: nat, rank: nat, rs: seq<Request>)
    requires Below(s, bound) && Paced(bound, rs) && org < bound && 1 <= rank <= 3
    requires LowRun(s, org, rank, rs)
    ensures Privilege(Run(s, rs), org, rank) <= Privilege(s, org, rank)
    ensures HighKept(s, Run(s, rs), org, rank)
    decreases |rs|
  {
    if rs != [] {
      var r, t := rs[0], Next(s, rs[0]);
      DecideJustified(s, r);
      DecideFresh(s, bound, r);
      StepBelow(s, bound, r);
      if r.Deliver? {
        EventWrite(s, r, org, rank);
      } else {
        LowWrite(s, bound, r.actor, Decide(s, r).change, org, rank);
      }
      RankFlowBound(t, Bump(bound, r), org, rank, rs[1..]);
      HighKeptTransitive(s, t, Run(s, rs), org, rank);
    }
  }

  lemma HighKeptTransitive(s: State, t: State, u: State, org: nat, rank: nat)
    requires HighKept(s, t, org, rank) && HighKept(t, u, org, rank)
    ensures HighKept(s, u, org, rank)
  {
    forall pk | pk in HighMembers(s.members, org, rank)
      ensures pk in u.members && u.members[pk] == s.members[pk]
    {
      assert pk in HighMembers(t.members, org, rank);
    }
  }

  /* ----- the same, with the roles written out ----- */

  /** The memberships of an organization with one of these roles. */
  function WithRole(members: Table<Membership>, org: nat, roles: set<Role>): set<nat> {
    set pk | pk in members && members[pk].org == org && members[pk].row.role in roles
  }

  function PendingWithRole(invites: Table<Invitation>, org: nat, roles: set<Role>): set<nat> {
    set pk | pk in invites && invites[pk].org == org && invites[pk].row.status == Pending && invites[pk].row.role in roles
  }

  /** Nobody who acts in the run has, when they act, a membership with one of these roles. */
  ghost predicate NoneActs(s: State, org: nat, roles: set<Role>, rs: seq<Request>)
    decreases |rs|
  {
    rs == [] ||
    (&& (rs[0].Deliver? || forall pk :: pk in WithRole(s.members, org, roles) ==> s.members[pk].row.user != rs[0].actor)
     && NoneActs(Next(s, rs[0]), org, roles, rs[1..]))
  }

  /** The roles from a rank on. */
  predicate RolesFrom(roles: set<Role>, rank: nat) {
    (roles == {Owner} && rank == 3) || (roles == {Owner, Admin} && rank == 2)
  }

  lemma RolesExactly(s: State, org: nat, roles: set<Role>, rank: nat)
    requires RolesFrom(roles, rank)
    ensures HighMembers(s.members, org, rank) == WithRole(s.members, org, roles)
    ensures HighInvites(s.invites, org, rank) == PendingWithRole(s.invites, org, roles)
  {
    assert forall role: Role :: role in roles <==> Rank(role) >= rank;
  }

  lemma LowActor(s: State, actor: nat, org: nat, roles: set<Role>, rank: nat)
    requires RolesFrom(roles, rank)
    requires forall pk :: pk in WithRole(s.members, org, roles) ==> s.members[pk].row.user != actor
    ensures ActorRank(s, actor, org) < rank
  {
    var own := First(UserKeys(s.members, actor, org));
    if own.Some? {
      assert own.value !in WithRole(s.members, org, roles);
    }
  }

  lemma {:induction false} LowRunExactly(s: State, org: nat, roles: set<Role>, rank: nat, rs: seq<Request>)
    requires RolesFrom(roles, rank) && NoneActs(s, org, roles, rs)
    ensures LowRun(s, org, rank, rs)
    decreases |rs|
  {
    if rs != [] {
      if !rs[0].Deliver? {
        LowActor(s, rs[0].actor, org, roles, rank);
      }
      LowRunExactly(Next(s, rs[0]), org, roles, rank, rs[1..]);
    }
  }

  lemma RolesFlow(s: State, bound: nat, org: nat, roles: set<Role>, rank: nat, rs: seq<Request>)
    requires Below(s, bound) && Paced(bound, rs) && org < bound && RolesFrom(roles, rank) && NoneActs(s, org, roles, rs)
    ensures var t := Run(s, rs);
            && |WithRole(t.members, org, roles)| + |PendingWithRole(t.invites, org, roles)| <=
               |WithRole(s.members, org, roles)| + |PendingWithRole(s.invites, org, roles)|
            && forall pk :: pk in WithRole(s.members, org, roles) ==> pk in t.members && t.members[pk] == s.members[pk]
  {
    LowRunExactly(s, org, roles, rank, rs);
    RankFlowBound(s, bound, org, rank, rs);
    RolesExactly(s, org, roles, rank);
    RolesExactly(Run(s, rs), org, roles, rank);
  }

  /** Along any run in which no Owner of the organization acts, every Owner's membership stays as it
      is, and Owners plus pending invitations of Owners do not grow in number. */
  lemma OwnersKept(s: State, bound: nat, org: nat, rs: seq<Request>)
    requires Below(s, bound) && Paced(bound, rs) && org < bound && NoneActs(s, org, {Owner}, rs)
    ensures var t := Run(s, rs);
            && |WithRole(t.members, org, {Owner})| + |PendingWithRole(t.invites, org, {Owner})| <=
               |WithRole(s.members, org, {Owner})| + |PendingWithRole(s.invites, org, {Owner})|
            && forall pk :: pk in s.members && s.members[pk].org == org && s.members[pk].row.role == Owner ==>
                 pk in t.members && t.members[pk] == s.members[pk]
  {
    RolesFlow(s, bound, org, {Owner}, 3, rs);
    assert forall pk :: pk in s.members && s.members[pk].org == org && s.members[pk].row.role == Owner ==>
             pk in WithRole(s.members, org, {Owner});
  }

  /** The same of Owners and Admins together, when only plain Members and outsiders act. */
  lemma ManagersKept(s: State, bound: nat, org: nat, rs: seq<Request>)
    requires Below(s, bound) && Paced(bound, rs) && org < bound && NoneActs(s, org, {Owner, Admin}, rs)
    ensures var t := Run(s, rs);
            && |WithRole(t.members, org, {Owner, Admin})| + |PendingWithRole(t.invites, org, {Owner, Admin})| <=
               |WithRole(s.members, org, {Owner, Admin})| + |PendingWithRole(s.invites, org, {Owner, Admin})|
            && forall pk :: pk in s.members && s.members[pk].org == org && s.members[pk].row.role in {Owner, Admin} ==>
                 pk in t.members && t.members[pk] == s.members[pk]
  {
    RolesFlow(s, bound, org, {Owner, Admin}, 2, rs);
    assert forall pk :: pk in s.members && s.members[pk].org == org && s.members[pk].row.role in {Owner, Admin} ==>
             pk in WithRole(s.members, org, {Owner, Admin});
  }
}
