/** What every run of requests keeps. */
module Invariants {
  import opened Models
  import opened Rbac
  import opened Billing
  import opened Requests

  /** Every row refers to an organization that exists. */
  ghost predicate Homed<T>(orgs: map<nat, Organization>, table: Table<T>) {
    forall pk :: pk in table ==> table[pk].org in orgs
  }

  /** Every organization has exactly one subscription, to a plan of the catalogue. */
  ghost predicate OneSubscription(plans: seq<Plan>, orgs: map<nat, Organization>, subs: Table<Subscription>) {
    && (forall o :: o in orgs ==> SubKeys(subs, o) != {})
    && (forall p, q :: p in subs && q in subs && subs[p].org == subs[q].org ==> p == q)
    && (forall p :: p in subs ==> subs[p].row.plan in Codes(plans))
  }

  ghost predicate UniqueSlugs(orgs: map<nat, Organization>) {
    forall o, p :: o in orgs && p in orgs && orgs[o].slug == orgs[p].slug ==> o == p
  }

  /** At most one membership per user and organization, of a user that exists. */
  ghost predicate UniqueMembers(users: map<nat, string>, members: Table<Membership>) {
    && (forall p :: p in members ==> members[p].row.user in users)
    && (forall p, q | p in members && q in members && members[p].org == members[q].org
                      && members[p].row.user == members[q].row.user :: p == q)
  }

  ghost predicate UniqueTokens(invites: Table<Invitation>) {
    forall p, q :: p in invites && q in invites && invites[p].row.token == invites[q].row.token ==> p == q
  }

  ghost predicate IsPending(invites: Table<Invitation>, pk: nat) {
    pk in invites && invites[pk].row.status == Pending
  }

  /** At most one pending invitation per organization and email. */
  ghost predicate UniquePending(invites: Table<Invitation>) {
    forall p, q | IsPending(invites, p) && IsPending(invites, q) && invites[p].org == invites[q].org
                  && Fold(invites[p].row.email) == Fold(invites[q].row.email) :: p == q
  }

  /** No pending invitation is for someone who already is a member. */
  ghost predicate PendingNotMember(users: map<nat, string>, members: Table<Membership>, invites: Table<Invitation>) {
    forall i, m | IsPending(invites, i) && m in members && members[m].org == invites[i].org
                  && members[m].row.user in users ::
      Fold(users[members[m].row.user]) != Fold(invites[i].row.email)
  }

  /** Every organization has an Owner. */
  ghost predicate Owned(orgs: map<nat, Organization>, members: Table<Membership>) {
    forall o :: o in orgs ==> OwnerKeys(members, o) != {}
  }

  ghost predicate Structure(s: State) {
    && Homed(s.orgs, s.members) && Homed(s.orgs, s.invites) && Homed(s.orgs, s.projects) && Homed(s.orgs, s.subs)
    && OneSubscription(s.plans, s.orgs, s.subs)
    && UniqueSlugs(s.orgs)
  }

  /** Every organization's rows are its own, and its plan is known. */
  ghost predicate Tenancy(s: State) {
    FreeSeeded(s.plans) && Structure(s)
  }

  /** Members and invitations fit together, and nobody's organization lacks an Owner. */
  ghost predicate Teams(s: State) {
    && UniqueMembers(s.users, s.members)
    && UniqueTokens(s.invites)
    && UniquePending(s.invites)
    && PendingNotMember(s.users, s.members, s.invites)
    && Owned(s.orgs, s.members)
  }

  ghost predicate Inv(s: State) {
    Tenancy(s) && Teams(s)
  }

  /** The database before the first organization. */
  function Initial(users: map<nat, string>, plans: seq<Plan>, lifetime: int): State {
    State(users, plans, lifetime, map[], map[], map[], map[], map[], {})
  }

  /* ----- creating and deleting organizations ----- */

  lemma OwnedAfterInsert(orgs: map<nat, Organization>, members: Table<Membership>, pk: nat,
                         org: Organization, actor: nat)
    requires Owned(orgs, members) && pk !in orgs && pk !in members
    ensures Owned(orgs[pk := org], members[pk := Scoped(pk, Membership(actor, Owner))])
  {
    var members' := members[pk := Scoped(pk, Membership(actor, Owner))];
    forall o | o in orgs[pk := org]
      ensures OwnerKeys(members', o) != {}
    {
      if o == pk {
        assert pk in OwnerKeys(members', pk);
      } else {
        var m :| m in OwnerKeys(members, o);
        assert m in OwnerKeys(members', o);
      }
    }
  }

  lemma SubscriptionAfterInsert(plans: seq<Plan>, orgs: map<nat, Organization>, subs: Table<Subscription>,
                                pk: nat, org: Organization, row: Subscription)
    requires OneSubscription(plans, orgs, subs) && Homed(orgs, subs)
    requires pk !in orgs && pk !in subs && row.plan in Codes(plans)
    ensures OneSubscription(plans, orgs[pk := org], subs[pk := Scoped(pk, row)])
  {
    var subs' := subs[pk := Scoped(pk, row)];
    forall o | o in orgs[pk := org]
      ensures SubKeys(subs', o) != {}
    {
      if o == pk {
        assert pk in SubKeys(subs', pk);
      } else {
        var p :| p in SubKeys(subs, o);
        assert p in SubKeys(subs', o);
      }
    }
  }

  lemma SlugsAfterInsert(orgs: map<nat, Organization>, pk: nat, org: Organization)
    requires UniqueSlugs(orgs) && pk !in orgs && org.slug !in TakenSlugs(orgs)
    ensures UniqueSlugs(orgs[pk := org])
  {
    forall o | o in orgs
      ensures orgs[o].slug != org.slug
    {
      assert orgs[o].slug in TakenSlugs(orgs);
    }
  }

  lemma InsertOrgKeepsTenancy(s: State, bound: nat, pk: nat, actor: nat, name: string, slug: string)
    requires Tenancy(s) && Below(s, bound) && bound <= pk && slug !in TakenSlugs(s.orgs)
    ensures var t := InsertOrg(s, pk, actor, name, slug); Tenancy(t)
  {
    var org := Organization(name, slug, actor);
    assert pk !in s.orgs && pk !in s.subs && SubKeys(s.subs, pk) == {};
    SubscriptionAfterInsert(s.plans, s.orgs, s.subs, pk, org, Subscription(FREE, "", "", Active, None));
    SlugsAfterInsert(s.orgs, pk, org);
  }

  lemma InsertOrgKeepsTeams(s: State, bound: nat, pk: nat, actor: nat, name: string, slug: string)
    requires Inv(s) && Below(s, bound) && bound <= pk && actor in s.users
    ensures var t := InsertOrg(s, pk, actor, name, slug); Teams(t)
  {
    assert pk !in s.orgs && pk !in s.members;
    OwnedAfterInsert(s.orgs, s.members, pk, Organization(name, slug, actor), actor);
  }

  /** `less` has some of the rows of `table`, unchanged. */
  ghost predicate SubTable<T>(less: Table<T>, table: Table<T>) {
    forall pk :: pk in less ==> pk in table && less[pk] == table[pk]
  }

  lemma TeamsOfFewer(s: State, members: Table<Membership>, invites: Table<Invitation>)
    requires Teams(s) && SubTable(members, s.members) && SubTable(invites, s.invites)
    ensures UniqueMembers(s.users, members) && UniqueTokens(invites) && UniquePending(invites)
    ensures PendingNotMember(s.users, members, invites)
  {
  }

  lemma OwnedAfterDrop(orgs: map<nat, Organization>, members: Table<Membership>, org: nat)
    requires Owned(orgs, members)
    ensures Owned(orgs - {org}, Without(members, org))
  {
    forall o | o in orgs - {org}
      ensures OwnerKeys(Without(members, org), o) != {}
    {
      var m :| m in OwnerKeys(members, o);
      assert m in OwnerKeys(Without(members, org), o);
    }
  }

  lemma DropOrgKeepsTeams(s: State, org: nat)
    requires Teams(s)
    ensures var t := DropOrg(s, org); Teams(t)
  {
    TeamsOfFewer(s, Without(s.members, org), Without(s.invites, org));
    OwnedAfterDrop(s.orgs, s.members, org);
  }

  lemma SubscriptionAfterDrop(plans: seq<Plan>, orgs: map<nat, Organization>, subs: Table<Subscription>, org: nat)
    requires OneSubscription(plans, orgs, subs)
    ensures OneSubscription(plans, orgs - {org}, Without(subs, org))
  {
    forall o | o in orgs - {org}
      ensures SubKeys(Without(subs, org), o) != {}
    {
      var p :| p in SubKeys(subs, o);
      assert p in SubKeys(Without(subs, org), o);
    }
  }

  lemma DropOrgKeepsTenancy(s: State, org: nat)
    requires Tenancy(s)
    ensures var t := DropOrg(s, org); Tenancy(t)
  {
    SubscriptionAfterDrop(s.plans, s.orgs, s.subs, org);
  }

  /* ----- members ----- */

  /** Removing an element leaves another when there were at least two. */
  lemma AnotherRemains(keys: set<nat>, k: nat)
    requires |keys| >= 2
    ensures keys - {k} != {}
  {
    assert |keys - {k}| >= |keys| - |{k}|;
  }

  lemma OwnedAfterRemove(orgs: map<nat, Organization>, members: Table<Membership>, member: nat)
    requires Owned(orgs, members) && member in members && !IsLastOwner(members, member)
    ensures Owned(orgs, members - {member})
  {
    forall o | o in orgs
      ensures OwnerKeys(members - {member}, o) != {}
    {
      assert OwnerKeys(members - {member}, o) == OwnerKeys(members, o) - {member};
      if member in OwnerKeys(members, o) {
        AnotherRemains(OwnerKeys(members, o), member);
      }
    }
  }

  lemma OwnedAfterPut(orgs: map<nat, Organization>, members: Table<Membership>, member: nat, row: Membership)
    requires Owned(orgs, members) && member in members
    requires members[member].row.role == Owner && row.role != Owner ==> !IsLastOwner(members, member)
    ensures Owned(orgs, members[member := Scoped(members[member].org, row)])
  {
    var members' := members[member := Scoped(members[member].org, row)];
    forall o | o in orgs
      ensures OwnerKeys(members', o) != {}
    {
      if o == members[member].org && row.role == Owner {
        assert member in OwnerKeys(members', o);
      } else {
        assert OwnerKeys(members', o) == OwnerKeys(members, o) - {member};
        if member in OwnerKeys(members, o) {
          AnotherRemains(OwnerKeys(members, o), member);
        }
      }
    }
  }

  /* ----- invitations ----- */

  lemma PendingAfterInvite(s: State, org: nat, pk: nat, invitation: Invitation)
    requires Teams(s) && pk !in s.invites
    requires MembersByEmail(s.users, s.members, org, invitation.email) == {}
    requires PendingByEmail(s.invites, org, invitation.email) == {}
    ensures UniquePending(s.invites[pk := Scoped(org, invitation)])
    ensures PendingNotMember(s.users, s.members, s.invites[pk := Scoped(org, invitation)])
  {
    forall p | IsPending(s.invites, p) && s.invites[p].org == org
      ensures Fold(s.invites[p].row.email) != Fold(invitation.email)
    {
      assert p !in PendingByEmail(s.invites, org, invitation.email);
    }
    forall m | m in s.members && s.members[m].org == org && s.members[m].row.user in s.users
      ensures Fold(s.users[s.members[m].row.user]) != Fold(invitation.email)
    {
      assert m !in MembersByEmail(s.users, s.members, org, invitation.email);
    }
    var after := s.invites[pk := Scoped(org, invitation)];
    assert forall p :: IsPending(after, p) && p != pk ==> IsPending(s.invites, p) && after[p] == s.invites[p];
  }

  /** A spent invitation leaves the others, and none of them pending for its email. */
  lemma PendingAfterSpent(s: State, key: nat, org: nat, spent: Invitation, status: Status)
    requires Teams(s) && Spends(s, key, org, spent, status) && status != Pending
    ensures var after := s.invites[key := Scoped(org, spent)];
            && UniqueTokens(after) && UniquePending(after) && PendingNotMember(s.users, s.members, after)
            && forall i :: IsPending(after, i) && after[i].org == org ==> Fold(after[i].row.email) != Fold(spent.email)
  {
    var after := s.invites[key := Scoped(org, spent)];
    assert forall p :: IsPending(after, p) ==> p != key && IsPending(s.invites, p) && after[p] == s.invites[p];
    assert IsPending(s.invites, key);
  }

  /** Accepting never meets the case that the user already is a member. */
  lemma AcceptFindsNoMembership(s: State, actor: nat, key: nat, org: nat)
    requires Teams(s) && PendingAt(s, key, org) && actor in s.users
    requires Fold(s.users[actor]) == Fold(s.invites[key].row.email)
    ensures UserKeys(s.members, actor, org) == {}
  {
    assert IsPending(s.invites, key);
    forall m | m in s.members && s.members[m].org == org
      ensures s.members[m].row.user != actor
    {
    }
  }

  /** A membership of a user who has none there and whom no pending invitation is for. */
  lemma MembersAfterJoin(users: map<nat, string>, orgs: map<nat, Organization>, members: Table<Membership>,
                         invites: Table<Invitation>, org: nat, pk: nat, row: Membership)
    requires UniqueMembers(users, members) && PendingNotMember(users, members, invites) && Owned(orgs, members)
    requires pk !in members && row.user in users && UserKeys(members, row.user, org) == {}
    requires forall i :: IsPending(invites, i) && invites[i].org == org ==>
                           Fold(invites[i].row.email) != Fold(users[row.user])
    ensures var after := members[pk := Scoped(org, row)];
            UniqueMembers(users, after) && PendingNotMember(users, after, invites) && Owned(orgs, after)
  {
    var after := members[pk := Scoped(org, row)];
    forall m | m in members && members[m].org == org
      ensures members[m].row.user != row.user
    {
      assert m !in UserKeys(members, row.user, org);
    }
    forall o | o in orgs
      ensures OwnerKeys(after, o) != {}
    {
      var m :| m in OwnerKeys(members, o);
      assert m in OwnerKeys(after, o);
    }
  }

  lemma JoinKeepsTeams(s: State, actor: nat, c: Change)
    requires Teams(s) && c.Joined? && Justified(s, actor, c) && c.pk !in s.members
    ensures var t := Apply(s, c); Teams(t)
  {
    PendingAfterSpent(s, c.key, c.org, c.spent, Accepted);
    MembersAfterJoin(s.users, s.orgs, s.members, s.invites[c.key := Scoped(c.org, c.spent)], c.org, c.pk,
                     c.membership);
  }

  /* ----- webhooks ----- */

  /** An event changes rows of existing subscriptions only, and only to catalogue plans. */
  lemma HandleEventShape(plans: seq<Plan>, subs: Table<Subscription>, e: Event)
    requires FreeSeeded(plans)
    ensures var after := HandleEvent(plans, subs, e);
            && after.Keys == subs.Keys
            && forall pk :: pk in subs ==>
                 && after[pk].org == subs[pk].org
                 && (subs[pk].row.plan in Codes(plans) ==> after[pk].row.plan in Codes(plans))
  {
  }

  lemma SubscriptionAfterEvent(plans: seq<Plan>, orgs: map<nat, Organization>, subs: Table<Subscription>,
                               after: Table<Subscription>)
    requires OneSubscription(plans, orgs, subs) && Homed(orgs, subs) && after.Keys == subs.Keys
    requires forall pk :: pk in subs ==> after[pk].org == subs[pk].org && after[pk].row.plan in Codes(plans)
    ensures OneSubscription(plans, orgs, after) && Homed(orgs, after)
  {
    forall o | o in orgs
      ensures SubKeys(after, o) != {}
    {
      assert SubKeys(after, o) == SubKeys(subs, o);
    }
  }

  /* ----- every write ----- */

  lemma MemberWriteKeepsTeams(s: State, actor: nat, c: Change)
    requires Teams(s) && Justified(s, actor, c)
    requires c.RoleSaved? || c.MemberRemoved?
    ensures var t := Apply(s, c); Teams(t)
  {
    if c.RoleSaved? {
      OwnedAfterPut(s.orgs, s.members, c.member, c.membership);
    } else {
      TeamsOfFewer(s, s.members - {c.member}, s.invites);
      OwnedAfterRemove(s.orgs, s.members, c.member);
    }
  }

  lemma InviteWriteKeepsTeams(s: State, bound: nat, actor: nat, c: Change)
    requires Teams(s) && Below(s, bound) && FreshIn(bound, c) && Justified(s, actor, c)
    requires c.Invited? || c.MarkedExpired?
    ensures var t := Apply(s, c); Teams(t)
  {
    if c.Invited? {
      PendingAfterInvite(s, c.org, c.pk, c.invitation);
    } else {
      PendingAfterSpent(s, c.key, c.org, c.spent, Expired);
    }
  }

  lemma WriteKeepsTeams(s: State, bound: nat, actor: nat, c: Change)
    requires Inv(s) && Below(s, bound) && FreshIn(bound, c) && Justified(s, actor, c)
    ensures var t := Apply(s, c); Teams(t)
  {
    if c.OrgInserted? {
      InsertOrgKeepsTeams(s, bound, c.pk, c.actor, c.name, c.slug);
    } else if c.OrgDropped? {
      DropOrgKeepsTeams(s, c.org);
    } else if c.Joined? {
      JoinKeepsTeams(s, actor, c);
    } else if c.Rejoined? {
      AcceptFindsNoMembership(s, actor, c.key, c.org);
    } else if c.RoleSaved? || c.MemberRemoved? {
      MemberWriteKeepsTeams(s, actor, c);
    } else if c.Invited? || c.MarkedExpired? {
      InviteWriteKeepsTeams(s, bound, actor, c);
    }
  }

  lemma ActorHome(s: State, actor: nat, org: nat)
    requires Homed(s.orgs, s.members) && CallerRole(s.members, actor, org).Some?
    ensures org in s.orgs
  {
  }

  /** A row is only written for an organization that exists. */
  lemma RowWriteAtHome(s: State, actor: nat, c: Change)
    requires Structure(s) && Justified(s, actor, c)
    requires c.RoleSaved? || c.Invited? || c.MarkedExpired? || c.Joined? || c.Rejoined?
             || c.ProjectInserted? || c.ProjectSaved?
    ensures c.org in s.orgs
  {
    if c.Invited? || c.ProjectInserted? {
      ActorHome(s, actor, c.org);
    }
  }

  lemma HomedPut<T>(orgs: map<nat, Organization>, table: Table<T>, pk: nat, org: nat, row: T)
    requires Homed(orgs, table) && org in orgs
    ensures Homed(orgs, table[pk := Scoped(org, row)])
  {
  }

  lemma RowWriteKeepsHomes(s: State, c: Change)
    requires Homed(s.orgs, s.members) && Homed(s.orgs, s.invites) && Homed(s.orgs, s.projects)
    requires c.RoleSaved? || c.Invited? || c.MarkedExpired? || c.Joined? || c.Rejoined?
             || c.ProjectInserted? || c.ProjectSaved?
    requires c.org in s.orgs
    ensures var t := Apply(s, c);
            Homed(s.orgs, t.members) && Homed(s.orgs, t.invites) && Homed(s.orgs, t.projects)
  {
    match c
    case RoleSaved(member, org, membership) => HomedPut(s.orgs, s.members, member, org, membership);
    case Invited(pk, org, invitation) => HomedPut(s.orgs, s.invites, pk, org, invitation);
    case MarkedExpired(key, org, spent) => HomedPut(s.orgs, s.invites, key, org, spent);
    case Joined(key, org, spent, pk, membership) =>
      HomedPut(s.orgs, s.invites, key, org, spent);
      HomedPut(s.orgs, s.members, pk, org, membership);
    case Rejoined(key, org, spent) => HomedPut(s.orgs, s.invites, key, org, spent);
    case ProjectInserted(pk, org, project) => HomedPut(s.orgs, s.projects, pk, org, project);
    case ProjectSaved(pk, org, project) => HomedPut(s.orgs, s.projects, pk, org, project);
  }

  lemma SavedOrgKeeps(plans: seq<Plan>, orgs: map<nat, Organization>, subs: Table<Subscription>,
                      org: nat, saved: Organization)
    requires UniqueSlugs(orgs) && OneSubscription(plans, orgs, subs)
    requires org in orgs && saved.slug == orgs[org].slug
    ensures UniqueSlugs(orgs[org := saved]) && OneSubscription(plans, orgs[org := saved], subs)
  {
  }

  lemma EventKeepsTenancy(s: State, e: Event)
    requires Tenancy(s)
    ensures var t := Apply(s, Recorded(e)); Tenancy(t)
  {
    HandleEventShape(s.plans, s.subs, e);
    SubscriptionAfterEvent(s.plans, s.orgs, s.subs, HandleEvent(s.plans, s.subs, e));
  }

  lemma WriteKeepsTenancy(s: State, bound: nat, actor: nat, c: Change)
    requires Tenancy(s) && Below(s, bound) && FreshIn(bound, c) && Justified(s, actor, c)
    ensures var t := Apply(s, c); Tenancy(t)
  {
    if c.OrgInserted? {
      InsertOrgKeepsTenancy(s, bound, c.pk, c.actor, c.name, c.slug);
    } else if c.OrgSaved? {
      SavedOrgKeeps(s.plans, s.orgs, s.subs, c.org, c.saved);
    } else if c.OrgDropped? {
      DropOrgKeepsTenancy(s, c.org);
    } else if c.Recorded? {
      EventKeepsTenancy(s, c.event);
    } else if !c.Nothing? && !c.MemberRemoved? && !c.ProjectRemoved? {
      RowWriteAtHome(s, actor, c);
      RowWriteKeepsHomes(s, c);
    }
  }

  /** Every request keeps the invariant. */
  lemma StepKeeps(s: State, bound: nat, r: Request)
    requires Inv(s) && Below(s, bound) && Fresh(bound, r)
    ensures var t := Next(s, r); Inv(t)
  {
    var c := Decide(s, r).change;
    DecideJustified(s, r);
    DecideFresh(s, bound, r);
    WriteKeepsTenancy(s, bound, ActorOf(r), c);
    WriteKeepsTeams(s, bound, ActorOf(r), c);
  }

  /** The numbers a write brings lie below `next`. */
  predicate UsesBelow(c: Change, next: nat) {
    match c
    case OrgInserted(pk, _, _, _) => pk < next
    case Invited(pk, _, invitation) => pk < next && invitation.token < next
    case Joined(_, _, _, pk, _) => pk < next
    case ProjectInserted(pk, _, _) => pk < next
    case _ => true
  }

  lemma DecideUsesBelow(s: State, bound: nat, r: Request)
    requires Fresh(bound, r)
    ensures UsesBelow(Decide(s, r).change, Bump(bound, r))
  {
  }

  lemma WriteBelow(s: State, bound: nat, actor: nat, c: Change, next: nat)
    requires Below(s, bound) && bound <= next && Justified(s, actor, c)
    requires UsesBelow(c, next)
    ensures var t := Apply(s, c); Below(t, next)
  {
    if c.OrgInserted? || c.OrgSaved? || c.OrgDropped? || c.Recorded? {
      OrgWriteBelow(s, bound, actor, c, next);
    }
  }

  lemma OrgWriteBelow(s: State, bound: nat, actor: nat, c: Change, next: nat)
    requires Below(s, bound) && bound <= next && Justified(s, actor, c) && UsesBelow(c, next)
    requires c.OrgInserted? || c.OrgSaved? || c.OrgDropped? || c.Recorded?
    ensures var t := Apply(s, c); Below(t, next)
  {
  }

  /** Numbers stay below the bound as it moves. */
  lemma StepBelow(s: State, bound: nat, r: Request)
    requires Below(s, bound) && Fresh(bound, r)
    ensures var t := Next(s, r); Below(t, Bump(bound, r))
  {
    DecideJustified(s, r);
    DecideUsesBelow(s, bound, r);
    WriteBelow(s, bound, ActorOf(r), Decide(s, r).change, Bump(bound, r));
  }

  function BoundAfter(bound: nat, rs: seq<Request>): nat
    requires Paced(bound, rs)
    decreases |rs|
  {
    if rs == [] then bound else BoundAfter(Bump(bound, rs[0]), rs[1..])
  }

  lemma {:induction false} RunKeeps(s: State, bound: nat, rs: seq<Request>)
    requires Inv(s) && Below(s, bound) && Paced(bound, rs)
    ensures Inv(Run(s, rs)) && Below(Run(s, rs), BoundAfter(bound, rs))
    decreases |rs|
  {
    if rs != [] {
      StepKeeps(s, bound, rs[0]);
      StepBelow(s, bound, rs[0]);
      RunKeeps(Next(s, rs[0]), Bump(bound, rs[0]), rs[1..]);
    }
  }

  /** Every database that requests can reach from an empty one satisfies the invariant. */
  lemma ReachableInv(users: map<nat, string>, plans: seq<Plan>, lifetime: int, rs: seq<Request>)
    requires FreeSeeded(plans) && Paced(0, rs)
    ensures Inv(Run(Initial(users, plans, lifetime), rs))
  {
    RunKeeps(Initial(users, plans, lifetime), 0, rs);
  }
}
