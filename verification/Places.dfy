/** Who gets a place: invitations, acceptances and projects against the limits of the catalogue
    plan that the organization's subscription names. */
module Places {
  import opened Models
  import opened Rbac
  import opened Billing
  import opened Requests
  import opened Invariants
  import opened Policy
  import opened Seats

  /** The organization's subscription is to this plan of the catalogue. */
  ghost predicate OnPlan(s: State, org: nat, plan: Plan) {
    plan in s.plans && exists pk :: pk in s.subs && s.subs[pk].org == org && s.subs[pk].row.plan == plan.code
  }

  lemma PlanRow(s: State, org: nat, plan: Plan)
    requires OneSubscription(s.plans, s.orgs, s.subs) && UniqueCodes(s.plans) && OnPlan(s, org, plan)
    ensures PlanOf(s.plans, s.subs, org) == Some(plan)
    ensures MemberCap(s.plans, s.subs, org) == plan.maxMembers && ProjectCap(s.plans, s.subs, org) == plan.maxProjects
  {
    var pk :| pk in s.subs && s.subs[pk].org == org && s.subs[pk].row.plan == plan.code;
    assert pk in SubKeys(s.subs, org);
    assert PlanByCode(s.plans, plan.code).Some?;
  }

  /** Without a subscription the limits are those of the Free plan as it is built in. */
  lemma NoSubscription(s: State, org: nat)
    requires forall pk :: pk in s.subs ==> s.subs[pk].org != org
    ensures MemberCap(s.plans, s.subs, org) == Some(3) && ProjectCap(s.plans, s.subs, org) == Some(3)
  {
    assert SubKeys(s.subs, org) == {};
  }

  /** Members of the organization and its invitations still pending. */
  function Taken(s: State, org: nat): nat {
    |set pk | pk in s.members && s.members[pk].org == org|
    + |set pk | pk in s.invites && s.invites[pk].org == org && s.invites[pk].row.status == Pending|
  }

  function Kept(s: State, org: nat): nat {
    |set pk | pk in s.projects && s.projects[pk].org == org|
  }

  /** The count has not reached the limit, if there is one. */
  predicate Room(count: nat, limit: Option<int>) {
    limit.None? || count < limit.value
  }

  /* ----- invitations ----- */

  /** The same address, but for the case of letters. */
  predicate SameAddress(a: string, b: string) {
    |a| == |b| && forall i :: 0 <= i < |a| ==> a[i] == b[i] || CasePair(a[i], b[i])
  }

  /** A member of the organization has this address. */
  ghost predicate HasMember(s: State, org: nat, email: string) {
    exists pk :: pk in s.members && s.members[pk].org == org && s.members[pk].row.user in s.users
                 && SameAddress(s.users[s.members[pk].row.user], email)
  }

  ghost predicate HasPending(s: State, org: nat, email: string) {
    exists pk :: pk in s.invites && s.invites[pk].org == org && s.invites[pk].row.status == Pending
                 && SameAddress(s.invites[pk].row.email, email)
  }

  lemma MemberExactly(s: State, org: nat, email: string)
    ensures HasMember(s, org, email) <==> MembersByEmail(s.users, s.members, org, email) != {}
  {
    forall pk | pk in s.members && s.members[pk].row.user in s.users
      ensures SameAddress(s.users[s.members[pk].row.user], email) <==> Fold(s.users[s.members[pk].row.user]) == Fold(email)
    {
      FoldExactly(s.users[s.members[pk].row.user], email);
    }
    if HasMember(s, org, email) {
      var pk :| pk in s.members && s.members[pk].org == org && s.members[pk].row.user in s.users
                && SameAddress(s.users[s.members[pk].row.user], email);
      assert pk in MembersByEmail(s.users, s.members, org, email);
    }
  }

  lemma PendingExactly(s: State, org: nat, email: string)
    ensures HasPending(s, org, email) <==> PendingByEmail(s.invites, org, email) != {}
  {
    forall pk | pk in s.invites
      ensures SameAddress(s.invites[pk].row.email, email) <==> Fold(s.invites[pk].row.email) == Fold(email)
    {
      FoldExactly(s.invites[pk].row.email, email);
    }
    if HasPending(s, org, email) {
      var pk :| pk in s.invites && s.invites[pk].org == org && s.invites[pk].row.status == Pending
                && SameAddress(s.invites[pk].row.email, email);
      assert pk in PendingByEmail(s.invites, org, email);
    }
  }

  /** An Owner or Admin invites, at a role they may handle, an address that is neither a member's nor
      pending, exactly while members and pending invitations are below the plan's limit; then one
      pending invitation is added and nothing else changes. */
  lemma Inviting(s: State, actor: nat, org: nat, mine: Role, plan: Plan, email: string, role: Option<Role>, now: int,
                 pk: nat, token: nat)
    requires UniqueMembers(s.users, s.members) && OneSubscription(s.plans, s.orgs, s.subs) && UniqueCodes(s.plans)
    requires actor in s.users && Holds(s, actor, org, mine) && OnPlan(s, org, plan)
    ensures var r := Invite(actor, org, email, role, now, pk, token);
            if mine == Member then Decide(s, r) == Decision(Nothing, Forbidden)
            else if role.None? then Decide(s, r) == Decision(Nothing, BadRequest(InvalidPayload))
            else if !MayHandle(mine, role.value) then Decide(s, r) == Decision(Nothing, Forbidden)
            else if HasMember(s, org, email) then Decide(s, r) == Decision(Nothing, BadRequest(AlreadyMember))
            else if HasPending(s, org, email) then Decide(s, r) == Decision(Nothing, BadRequest(AlreadyPending))
            else if !Room(Taken(s, org), plan.maxMembers) then Decide(s, r) == Decision(Nothing, PaymentRequired)
            else
              var row := Invitation(Fold(email), role.value, token, Pending, actor, now + s.lifetime);
              && Decide(s, r).answer == InvitationBody(pk, row)
              && Next(s, r) == s.(invites := s.invites[pk := Scoped(org, row)])
  {
    RoleOf(s, actor, org, mine);
    PlanRow(s, org, plan);
    MemberExactly(s, org, email);
    PendingExactly(s, org, email);
    TakenExactly(s, org);
    InviteRule(s, actor, org, mine, email, role, now, pk, token, HasMember(s, org, email), HasPending(s, org, email),
               Room(Taken(s, org), plan.maxMembers));
  }

  lemma InviteRule(s: State, actor: nat, org: nat, mine: Role, email: string, role: Option<Role>, now: int, pk: nat,
                   token: nat, member: bool, pending: bool, room: bool)
    requires actor in s.users && CallerRole(s.members, actor, org) == Some(mine)
    requires member <==> MembersByEmail(s.users, s.members, org, email) != {}
    requires pending <==> PendingByEmail(s.invites, org, email) != {}
    requires room <==> !Full(Requests.Seats(s, org), MemberCap(s.plans, s.subs, org))
    ensures var d := Decide(s, Invite(actor, org, email, role, now, pk, token));
            if mine == Member then d == Decision(Nothing, Forbidden)
            else if role.None? then d == Decision(Nothing, BadRequest(InvalidPayload))
            else if !MayHandle(mine, role.value) then d == Decision(Nothing, Forbidden)
            else if member then d == Decision(Nothing, BadRequest(AlreadyMember))
            else if pending then d == Decision(Nothing, BadRequest(AlreadyPending))
            else if !room then d == Decision(Nothing, PaymentRequired)
            else
              var row := Invitation(Fold(email), role.value, token, Pending, actor, now + s.lifetime);
              d == Decision(Invited(pk, org, row), InvitationBody(pk, row))
  {
    HandledExactly(mine, if role.Some? then role.value else Member);
  }

  lemma TakenExactly(s: State, org: nat)
    ensures Taken(s, org) == Requests.Seats(s, org)
  {
    assert (set pk | pk in s.members && s.members[pk].org == org) == MemberKeys(s.members, org);
    assert (set pk | pk in s.invites && s.invites[pk].org == org && s.invites[pk].row.status == Pending)
           == PendingKeys(s.invites, org);
  }

  lemma KeptExactly(s: State, org: nat)
    ensures Kept(s, org) == ProjectCount(s, org)
  {
    assert (set pk | pk in s.projects && s.projects[pk].org == org) == ProjectKeys(s.projects, org);
  }

  /** An invitation is accepted exactly by a user with its address, while it is pending and before it
      expires; it joins them at its role, once. A late one is marked expired. */
  lemma Accepting(s: State, actor: nat, key: nat, now: int, pk: nat)
    requires Teams(s) && actor in s.users && key in s.invites
    ensures var r, org, row := Accept(actor, s.invites[key].row.token, now, pk), s.invites[key].org, s.invites[key].row;
            if row.status != Pending then Decide(s, r) == Decision(Nothing, BadRequest(InvalidInvitation))
            else if now >= row.expiresAt then
              && Decide(s, r).answer == BadRequest(ExpiredInvitation)
              && Next(s, r) == s.(invites := s.invites[key := Scoped(org, row.(status := Expired))])
            else if !SameAddress(s.users[actor], row.email) then
              Decide(s, r) == Decision(Nothing, BadRequest(InvalidInvitation))
            else
              && Decide(s, r).answer == MemberBody(pk, Membership(actor, row.role))
              && Next(s, r) == s.(invites := s.invites[key := Scoped(org, row.(status := Accepted))],
                                  members := s.members[pk := Scoped(org, Membership(actor, row.role))])
  {
    var row := s.invites[key].row;
    assert TokenKeys(s.invites, row.token) == {key};
    FoldExactly(s.users[actor], row.email);
    if row.status == Pending && now < row.expiresAt && Fold(s.users[actor]) == Fold(row.email) {
      AcceptFindsNoMembership(s, actor, key, s.invites[key].org);
    }
  }

  lemma UnknownToken(s: State, actor: nat, token: nat, now: int, pk: nat)
    requires actor in s.users && forall key :: key in s.invites ==> s.invites[key].row.token != token
    ensures Decide(s, Accept(actor, token, now, pk)) == Decision(Nothing, BadRequest(InvalidInvitation))
  {
    assert TokenKeys(s.invites, token) == {};
  }

  /* ----- projects ----- */

  /** Every member creates projects, exactly while the organization's are below the plan's limit. */
  lemma CreatingProjects(s: State, actor: nat, org: nat, mine: Role, plan: Plan, name: string, pk: nat)
    requires UniqueMembers(s.users, s.members) && OneSubscription(s.plans, s.orgs, s.subs) && UniqueCodes(s.plans)
    requires actor in s.users && Holds(s, actor, org, mine) && OnPlan(s, org, plan)
    ensures var r := CreateProject(actor, Some(org), name, pk);
            if name == "" then Decide(s, r) == Decision(Nothing, BadRequest(InvalidPayload))
            else if !Room(Kept(s, org), plan.maxProjects) then Decide(s, r) == Decision(Nothing, PaymentRequired)
            else
              && Decide(s, r).answer == ProjectBody(pk, Project(name, actor))
              && Next(s, r) == s.(projects := s.projects[pk := Scoped(org, Project(name, actor))])
  {
    RoleOf(s, actor, org, mine);
    PlanRow(s, org, plan);
    KeptExactly(s, org);
    assert Full(|ProjectKeys(s.projects, org)|, ProjectCap(s.plans, s.subs, org)) <==> !Room(Kept(s, org), plan.maxProjects);
  }

  /* ----- runs under one plan ----- */

  /** The organization is on this plan when each request of the run comes. */
  ghost predicate OnPlanThroughout(s: State, org: nat, plan: Plan, rs: seq<Request>)
    decreases |rs|
  {
    rs == [] || (OnPlan(s, org, plan) && OnPlanThroughout(Next(s, rs[0]), org, plan, rs[1..]))
  }

  /** No more than before, or no more than the limit. */
  predicate Bounded(before: nat, after: nat, limit: Option<int>) {
    limit.Some? ==> after <= before || after <= limit.value
  }

  lemma BoundedNext(before: nat, mid: nat, after: nat, limit: Option<int>)
    requires mid <= before + (if Room(before, limit) then 1 else 0) && Bounded(mid, after, limit)
    ensures Bounded(before, after, limit)
  {
  }

  /** While an organization stays on a plan, its members and pending invitations stay within the
      plan's maxMembers, and its projects within its maxProjects, or do not grow. */
  lemma {:induction false} LimitsHold(s: State, bound: nat, org: nat, plan: Plan, rs: seq<Request>)
    requires Inv(s) && UniqueCodes(s.plans) && Below(s, bound) && Paced(bound, rs) && org < bound
    requires OnPlanThroughout(s, org, plan, rs)
    ensures Bounded(Taken(s, org), Taken(Run(s, rs), org), plan.maxMembers)
    ensures Bounded(Kept(s, org), Kept(Run(s, rs), org), plan.maxProjects)
    decreases |rs|
  {
    if rs != [] {
      var r, t := rs[0], Next(s, rs[0]);
      StepKeeps(s, bound, r);
      StepBelow(s, bound, r);
      SamePlans(s, r);
      LimitsStep(s, bound, org, plan, r);
      LimitsHold(t, Bump(bound, r), org, plan, rs[1..]);
      BoundedNext(Taken(s, org), Taken(t, org), Taken(Run(t, rs[1..]), org), plan.maxMembers);
      BoundedNext(Kept(s, org), Kept(t, org), Kept(Run(t, rs[1..]), org), plan.maxProjects);
    }
  }

  lemma SamePlans(s: State, r: Request)
    ensures Next(s, r).plans == s.plans
  {
    WriteKeepsPlans(s, Decide(s, r).change);
  }

  lemma WriteKeepsPlans(s: State, c: Change)
    ensures Apply(s, c).plans == s.plans
  {
  }

  /** No request adds a seat or a project once the plan's limit is reached. */
  lemma LimitsStep(s: State, bound: nat, org: nat, plan: Plan, r: Request)
    requires Inv(s) && UniqueCodes(s.plans) && Below(s, bound) && Fresh(bound, r) && org < bound && OnPlan(s, org, plan)
    ensures Taken(Next(s, r), org) <= Taken(s, org) + if Room(Taken(s, org), plan.maxMembers) then 1 else 0
    ensures Kept(Next(s, r), org) <= Kept(s, org) + if Room(Kept(s, org), plan.maxProjects) then 1 else 0
  {
    PlanRow(s, org, plan);
    DecideJustified(s, r);
    DecideFresh(s, bound, r);
    SeatGrowth(s, bound, ActorOf(r), Decide(s, r).change, org);
    ProjectGrowth(s, bound, ActorOf(r), Decide(s, r).change, org);
    TakenExactly(s, org);
    TakenExactly(Next(s, r), org);
    KeptExactly(s, org);
    KeptExactly(Next(s, r), org);
  }
}
