/** Tenant isolation over whole runs: an organization's data and the answers to its own
    requests are what they would be if the organization were alone in the database. */
module Isolation {
  import opened Models
  import opened Rbac
  import opened Billing
  import opened Requests
  import opened Invariants
  import opened WebhookScope
  import Slugs

  /** The database with only one organization's rows left. The users, the catalogue and the
      webhook ledger belong to no organization and stay. */
  function Confine(s: State, org: nat): State {
    s.(orgs := map o | o in s.orgs && o == org :: s.orgs[o],
       members := Of(s.members, org),
       invites := Of(s.invites, org),
       projects := Of(s.projects, org),
       subs := Of(s.subs, org))
  }

  /** A request is an organization's own when its path or header names it, or its token is that of
      one of its invitations. Webhook deliveries come to all organizations. */
  predicate Own(s: State, org: nat, r: Request) {
    match r
    case CreateOrg(_, _, _, _) => false
    case UpdateOrg(_, o, _) => o == org
    case DestroyOrg(_, o) => o == org
    case ListMembers(_, o) => o == org
    case ChangeRole(_, o, _, _) => o == org
    case RemoveMember(_, o, _) => o == org
    case ListInvitations(_, o) => o == org
    case Invite(_, o, _, _, _, _, _) => o == org
    case Accept(_, token, _, _) => TokenKeys(Of(s.invites, org), token) != {}
    case ListProjects(_, header) => header == Some(org)
    case GetProject(_, header, _) => header == Some(org)
    case CreateProject(_, header, _, _) => header == Some(org)
    case UpdateProject(_, header, _, _) => header == Some(org)
    case DestroyProject(_, header, _) => header == Some(org)
    case Deliver(_, _) => true
  }

  /* ----- tables ----- */

  lemma OfPut<T>(table: Table<T>, pk: nat, row: Scoped<T>, org: nat)
    requires pk !in table || table[pk].org == row.org
    ensures Of(table[pk := row], org) == if row.org == org then Of(table, org)[pk := row] else Of(table, org)
  {
  }

  lemma OfWithout<T>(table: Table<T>, gone: nat, org: nat)
    ensures gone == org ==> Of(Without(table, gone), org) == map[]
    ensures gone == org ==> Without(Of(table, org), gone) == map[]
    ensures gone != org ==> Of(Without(table, gone), org) == Of(table, org)
  {
  }

  lemma OfRemove<T>(table: Table<T>, pk: nat, org: nat)
    ensures Of(table - {pk}, org) == Of(table, org) - {pk}
    ensures pk in table && table[pk].org != org ==> Of(table - {pk}, org) == Of(table, org)
  {
  }

  /* ----- an organization's own requests are decided from its own rows ----- */

  lemma SameMembers(members: Table<Membership>, org: nat)
    ensures forall user :: UserKeys(Of(members, org), user, org) == UserKeys(members, user, org)
    ensures forall user :: CallerRole(Of(members, org), user, org) == CallerRole(members, user, org)
    ensures OwnerKeys(Of(members, org), org) == OwnerKeys(members, org)
    ensures MemberKeys(Of(members, org), org) == MemberKeys(members, org)
    ensures Of(Of(members, org), org) == Of(members, org)
  {
    forall user
      ensures UserKeys(Of(members, org), user, org) == UserKeys(members, user, org)
    {
    }
  }

  lemma SameInvites(invites: Table<Invitation>, org: nat)
    ensures PendingKeys(Of(invites, org), org) == PendingKeys(invites, org)
    ensures Of(Of(invites, org), org) == Of(invites, org)
  {
  }

  lemma SamePending(invites: Table<Invitation>, org: nat, email: string)
    ensures PendingByEmail(Of(invites, org), org, email) == PendingByEmail(invites, org, email)
  {
    SameInvites(invites, org);
  }

  lemma SameByEmail(users: map<nat, string>, members: Table<Membership>, org: nat, email: string)
    ensures MembersByEmail(users, Of(members, org), org, email) == MembersByEmail(users, members, org, email)
  {
  }

  lemma SameProjects(projects: Table<Project>, org: nat)
    ensures ProjectKeys(Of(projects, org), org) == ProjectKeys(projects, org)
    ensures Of(Of(projects, org), org) == Of(projects, org)
  {
  }

  lemma SameCaps(plans: seq<Plan>, subs: Table<Subscription>, org: nat)
    ensures SubKeys(Of(subs, org), org) == SubKeys(subs, org)
    ensures PlanOf(plans, Of(subs, org), org) == PlanOf(plans, subs, org)
    ensures MemberCap(plans, Of(subs, org), org) == MemberCap(plans, subs, org)
    ensures ProjectCap(plans, Of(subs, org), org) == ProjectCap(plans, subs, org)
  {
    assert SubKeys(Of(subs, org), org) == SubKeys(subs, org);
  }

  lemma OrgDecisionsConfined(s: State, org: nat, actor: nat, name: string)
    ensures DoUpdateOrg(Confine(s, org), actor, org, name) == DoUpdateOrg(s, actor, org, name)
    ensures DoDestroyOrg(Confine(s, org), actor, org) == DoDestroyOrg(s, actor, org)
  {
    SameMembers(s.members, org);
  }

  lemma MemberDecisionsConfined(s: State, org: nat, actor: nat, member: nat, role: Option<Role>)
    ensures DoListMembers(Confine(s, org), actor, org) == DoListMembers(s, actor, org)
    ensures DoChangeRole(Confine(s, org), actor, org, member, role) == DoChangeRole(s, actor, org, member, role)
    ensures DoRemoveMember(Confine(s, org), actor, org, member) == DoRemoveMember(s, actor, org, member)
  {
    SameMembers(s.members, org);
    assert MemberRefusal(Confine(s, org), actor, org, member) == MemberRefusal(s, actor, org, member);
  }

  lemma ListInvitationsConfined(s: State, org: nat, actor: nat)
    ensures DoListInvitations(Confine(s, org), actor, org) == DoListInvitations(s, actor, org)
  {
    SameMembers(s.members, org);
    SameInvites(s.invites, org);
  }

  lemma InviteConfined(s: State, org: nat, actor: nat, email: string, role: Option<Role>, now: int,
                                pk: nat, token: nat)
    ensures DoInvite(Confine(s, org), actor, org, email, role, now, pk, token) ==
            DoInvite(s, actor, org, email, role, now, pk, token)
  {
    SameMembers(s.members, org);
    SamePending(s.invites, org, email);
    SameByEmail(s.users, s.members, org, email);
    SameSeats(s, org);
    var c := Confine(s, org);
    assert CallerRole(c.members, actor, org) == CallerRole(s.members, actor, org);
    assert MembersByEmail(c.users, c.members, org, email) == MembersByEmail(s.users, s.members, org, email);
    assert PendingByEmail(c.invites, org, email) == PendingByEmail(s.invites, org, email);
    assert Full(Seats(c, org), MemberCap(c.plans, c.subs, org)) == Full(Seats(s, org), MemberCap(s.plans, s.subs, org));
    InviteDecidedBy(s, c, org, actor, email, role, now, pk, token);
  }

  /** All that an invite is decided by. */
  lemma InviteDecidedBy(s: State, t: State, org: nat, actor: nat, email: string, role: Option<Role>, now: int,
                        pk: nat, token: nat)
    requires s.lifetime == t.lifetime && CallerRole(s.members, actor, org) == CallerRole(t.members, actor, org)
    requires MembersByEmail(s.users, s.members, org, email) == MembersByEmail(t.users, t.members, org, email)
    requires PendingByEmail(s.invites, org, email) == PendingByEmail(t.invites, org, email)
    requires Full(Seats(s, org), MemberCap(s.plans, s.subs, org)) == Full(Seats(t, org), MemberCap(t.plans, t.subs, org))
    ensures DoInvite(s, actor, org, email, role, now, pk, token) == DoInvite(t, actor, org, email, role, now, pk, token)
  {
  }

  lemma SameSeats(s: State, org: nat)
    ensures Seats(Confine(s, org), org) == Seats(s, org)
    ensures MemberCap(s.plans, Of(s.subs, org), org) == MemberCap(s.plans, s.subs, org)
  {
    SameMembers(s.members, org);
    SameInvites(s.invites, org);
    SameCaps(s.plans, s.subs, org);
  }

  /** Tokens are unique, so a token of the organization's leads to the same row either way. */
  lemma TokenConfined(invites: Table<Invitation>, org: nat, token: nat)
    requires UniqueTokens(invites) && TokenKeys(Of(invites, org), token) != {}
    ensures TokenKeys(invites, token) == TokenKeys(Of(invites, org), token)
  {
    var key :| key in TokenKeys(Of(invites, org), token);
    assert key in TokenKeys(invites, token);
  }

  lemma AcceptConfined(s: State, org: nat, actor: nat, token: nat, now: int, pk: nat)
    requires UniqueTokens(s.invites) && actor in s.users && TokenKeys(Of(s.invites, org), token) != {}
    ensures DoAccept(Confine(s, org), actor, token, now, pk) == DoAccept(s, actor, token, now, pk)
  {
    TokenConfined(s.invites, org, token);
    SameMembers(s.members, org);
  }

  lemma ProjectDecisionsConfined(s: State, org: nat, actor: nat, project: nat, name: string, pk: nat)
    ensures var c, header := Confine(s, org), Some(org);
            && DoListProjects(c, actor, header) == DoListProjects(s, actor, header)
            && DoGetProject(c, actor, header, project) == DoGetProject(s, actor, header, project)
            && DoCreateProject(c, actor, header, name, pk) == DoCreateProject(s, actor, header, name, pk)
  {
    SameMembers(s.members, org);
    SameProjects(s.projects, org);
    SameCaps(s.plans, s.subs, org);
  }

  lemma ProjectWritesConfined(s: State, org: nat, actor: nat, project: nat, name: string)
    ensures var c, header := Confine(s, org), Some(org);
            && DoUpdateProject(c, actor, header, project, name) == DoUpdateProject(s, actor, header, project, name)
            && DoDestroyProject(c, actor, header, project) == DoDestroyProject(s, actor, header, project)
  {
    SameMembers(s.members, org);
    SameProjects(s.projects, org);
    assert ProjectRefusal(Confine(s, org), actor, Some(org), project) ==
           ProjectRefusal(s, actor, Some(org), project);
  }

  /** An organization's own request is decided the same whether or not others exist. */
  lemma DecideConfined(s: State, org: nat, r: Request)
    requires UniqueTokens(s.invites) && Own(s, org, r)
    ensures Decide(Confine(s, org), r) == Decide(s, r)
  {
    if !r.Deliver? && r.actor in s.users {
      match r
      case UpdateOrg(actor, _, name) => OrgDecisionsConfined(s, org, actor, name);
      case DestroyOrg(actor, _) => OrgDecisionsConfined(s, org, actor, "");
      case ListMembers(actor, _) => MemberDecisionsConfined(s, org, actor, 0, None);
      case ChangeRole(actor, _, member, role) => MemberDecisionsConfined(s, org, actor, member, role);
      case RemoveMember(actor, _, member) => MemberDecisionsConfined(s, org, actor, member, None);
      case ListInvitations(actor, _) => ListInvitationsConfined(s, org, actor);
      case Invite(actor, _, email, role, now, pk, token) =>
        InviteConfined(s, org, actor, email, role, now, pk, token);
      case Accept(actor, token, now, pk) => AcceptConfined(s, org, actor, token, now, pk);
      case ListProjects(actor, _) => ProjectDecisionsConfined(s, org, actor, 0, "", 0);
      case GetProject(actor, _, project) => ProjectDecisionsConfined(s, org, actor, project, "", 0);
      case CreateProject(actor, _, name, pk) => ProjectDecisionsConfined(s, org, actor, 0, name, pk);
      case UpdateProject(actor, _, project, name) => ProjectWritesConfined(s, org, actor, project, name);
      case DestroyProject(actor, _, project) => ProjectWritesConfined(s, org, actor, project, "");
    }
  }

  /* ----- writes reach one organization ----- */

  /** The organization a write belongs to. */
  function Target(s: State, c: Change): Option<nat> {
    match c
    case Nothing => None
    case OrgInserted(pk, _, _, _) => Some(pk)
    case OrgSaved(org, _) => Some(org)
    case OrgDropped(org) => Some(org)
    case RoleSaved(_, org, _) => Some(org)
    case MemberRemoved(member) => if member in s.members then Some(s.members[member].org) else None
    case Invited(_, org, _) => Some(org)
    case MarkedExpired(_, org, _) => Some(org)
    case Joined(_, org, _, _, _) => Some(org)
    case Rejoined(_, org, _) => Some(org)
    case ProjectInserted(_, org, _) => Some(org)
    case ProjectSaved(_, org, _) => Some(org)
    case ProjectRemoved(pk) => if pk in s.projects then Some(s.projects[pk].org) else None
    case Recorded(_) => None
  }

  /** A request that is not the organization's own writes to another one, if anywhere. */
  lemma ForeignTarget(s: State, bound: nat, org: nat, r: Request)
    requires UniqueTokens(s.invites) && !Own(s, org, r) && Fresh(bound, r) && org < bound
    ensures Target(s, Decide(s, r).change) != Some(org) && !Decide(s, r).change.Recorded?
  {
  }

  lemma InsertConfined(s: State, pk: nat, actor: nat, name: string, slug: string, org: nat)
    requires pk !in s.members && pk !in s.subs && org != pk
    ensures Confine(InsertOrg(s, pk, actor, name, slug), org) == Confine(s, org)
  {
    OfPut(s.members, pk, Scoped(pk, Membership(actor, Owner)), org);
    OfPut(s.subs, pk, Scoped(pk, Subscription(FREE, "", "", Active, None)), org);
  }

  lemma DropConfined(s: State, gone: nat, org: nat)
    ensures Confine(DropOrg(s, gone), org) == if gone == org then DropOrg(Confine(s, org), org) else Confine(s, org)
  {
    OfWithout(s.members, gone, org);
    OfWithout(s.invites, gone, org);
    OfWithout(s.projects, gone, org);
    OfWithout(s.subs, gone, org);
  }

  lemma OrgWriteConfined(s: State, bound: nat, actor: nat, c: Change, org: nat)
    requires Below(s, bound) && FreshIn(bound, c) && Justified(s, actor, c) && org < bound
    requires c.OrgInserted? || c.OrgSaved? || c.OrgDropped?
    ensures Confine(Apply(s, c), org) ==
            if Target(s, c) == Some(org) then Apply(Confine(s, org), c) else Confine(s, org)
  {
    match c
    case OrgInserted(pk, user, name, slug) => InsertConfined(s, pk, user, name, slug, org);
    case OrgSaved(_, _) =>
    case OrgDropped(gone) => DropConfined(s, gone, org);
  }

  lemma MemberWriteConfined(s: State, bound: nat, actor: nat, c: Change, org: nat)
    requires Below(s, bound) && FreshIn(bound, c) && Justified(s, actor, c)
    requires c.RoleSaved? || c.MemberRemoved?
    ensures Confine(Apply(s, c), org) ==
            if Target(s, c) == Some(org) then Apply(Confine(s, org), c) else Confine(s, org)
  {
    if c.RoleSaved? {
      OfPut(s.members, c.member, Scoped(c.org, c.membership), org);
    } else {
      OfRemove(s.members, c.member, org);
    }
  }

  lemma InviteWriteConfined(s: State, bound: nat, actor: nat, c: Change, org: nat)
    requires Below(s, bound) && FreshIn(bound, c) && Justified(s, actor, c)
    requires c.Invited? || c.MarkedExpired? || c.Joined? || c.Rejoined?
    ensures Confine(Apply(s, c), org) ==
            if Target(s, c) == Some(org) then Apply(Confine(s, org), c) else Confine(s, org)
  {
    match c
    case Invited(pk, o, invitation) => OfPut(s.invites, pk, Scoped(o, invitation), org);
    case MarkedExpired(key, o, spent) => OfPut(s.invites, key, Scoped(o, spent), org);
    case Joined(key, o, spent, pk, membership) =>
      OfPut(s.invites, key, Scoped(o, spent), org);
      OfPut(s.members, pk, Scoped(o, membership), org);
    case Rejoined(key, o, spent) => OfPut(s.invites, key, Scoped(o, spent), org);
  }

  lemma ProjectWriteConfined(s: State, bound: nat, actor: nat, c: Change, org: nat)
    requires Below(s, bound) && FreshIn(bound, c) && Justified(s, actor, c)
    requires c.ProjectInserted? || c.ProjectSaved? || c.ProjectRemoved?
    ensures Confine(Apply(s, c), org) ==
            if Target(s, c) == Some(org) then Apply(Confine(s, org), c) else Confine(s, org)
  {
    if c.ProjectRemoved? {
      OfRemove(s.projects, c.pk, org);
    } else {
      OfPut(s.projects, c.pk, Scoped(c.org, c.project), org);
    }
  }

  /** A write is seen in its own organization exactly as if the organization were alone, and
      nowhere else. */
  lemma WriteConfined(s: State, bound: nat, actor: nat, c: Change, org: nat)
    requires Below(s, bound) && FreshIn(bound, c) && Justified(s, actor, c) && org < bound && !c.Recorded?
    ensures Confine(Apply(s, c), org) ==
            if Target(s, c) == Some(org) then Apply(Confine(s, org), c) else Confine(s, org)
  {
    if c.OrgInserted? || c.OrgSaved? || c.OrgDropped? {
      OrgWriteConfined(s, bound, actor, c, org);
    } else if c.RoleSaved? || c.MemberRemoved? {
      MemberWriteConfined(s, bound, actor, c, org);
    } else if c.Invited? || c.MarkedExpired? || c.Joined? || c.Rejoined? {
      InviteWriteConfined(s, bound, actor, c, org);
    } else if !c.Nothing? {
      ProjectWriteConfined(s, bound, actor, c, org);
    }
  }

  /** An organization's own request writes to it, or nothing. */
  lemma OwnTarget(s: State, org: nat, r: Request)
    requires UniqueTokens(s.invites) && Own(s, org, r) && !r.Deliver?
    ensures var c := Decide(s, r).change; c.Nothing? || Target(s, c) == Some(org)
    ensures !Decide(s, r).change.Recorded?
  {
    if r.Accept? {
      TokenConfined(s.invites, org, r.token);
    }
  }

  /* ----- webhooks ----- */

  /** The event finds the same row among the organization's own as in the whole table, or would
      leave the row it finds among its own as it is. */
  predicate Clear(s: State, org: nat, e: Event) {
    || e.kind.Unhandled? || Raises(e)
    || !Shadowed(s.subs, org, e)
    || Updated(s.plans, s.subs[Find(Of(s.subs, org), e).value].row, e) == s.subs[Find(Of(s.subs, org), e).value].row
  }

  /** A clear event does to an organization's subscription what it would do were the organization
      alone in the database. */
  lemma EventConfined(s: State, org: nat, e: Event)
    requires Clear(s, org, e)
    ensures Confine(Apply(s, Recorded(e)), org) == Apply(Confine(s, org), Recorded(e))
  {
    if !e.kind.Unhandled? && !Raises(e) {
      EventConfinedRows(s.plans, s.subs, org, e);
      if Shadowed(s.subs, org, e) {
        var own := Of(s.subs, org);
        var here := Find(own, e).value;
        assert own[here := Scoped(own[here].org, own[here].row)] == own;
      }
      assert Of(HandleEvent(s.plans, s.subs, e), org) == HandleEvent(s.plans, Of(s.subs, org), e);
    }
  }

  lemma EventConfinedRows(plans: seq<Plan>, subs: Table<Subscription>, org: nat, e: Event)
    requires !e.kind.Unhandled? && !Raises(e)
    ensures var own := Of(subs, org);
            var here := Find(own, e);
            Of(HandleEvent(plans, subs, e), org) ==
            if Shadowed(subs, org, e) then own else HandleEvent(plans, own, e)
  {
    FindFirst(subs, e);
    FindFirst(Of(subs, org), e);
    FoundAlike(subs, org, e);
    var all := Find(subs, e);
    if Shadowed(subs, org, e) {
      ShadowedFinds(subs, org, e);
    }
    if all.Some? {
      OfPut(subs, all.value, Scoped(subs[all.value].org, Updated(plans, subs[all.value].row, e)), org);
    }
  }

  /** Nothing less will do: an event that is not clear changes the organization's subscription
      differently from how it would were the organization alone. */
  lemma UnclearEvent(s: State, org: nat, e: Event)
    requires !Clear(s, org, e)
    ensures Confine(Apply(s, Recorded(e)), org) != Apply(Confine(s, org), Recorded(e))
  {
    EventConfinedRows(s.plans, s.subs, org, e);
    var own := Of(s.subs, org);
    var here := Find(own, e).value;
    FindFirst(own, e);
    assert HandleEvent(s.plans, own, e)[here] != own[here];
  }

  /** Two organizations, 1 and 2, with the same owner and the same Stripe customer. */
  function SharedCustomer(user: nat): State {
    var sub := Subscription(FREE, "cus", "", Active, None);
    State(map[user := "o@x"], [Plan(FREE, "", Some(3), Some(3), true)], 0,
          map[1 := Organization("a", "a", user), 2 := Organization("b", "b", user)],
          map[1 := Scoped(1, Membership(user, Owner)), 2 := Scoped(2, Membership(user, Owner))],
          map[], map[], map[1 := Scoped(1, sub), 2 := Scoped(2, sub)], {"c1", "c2"})
  }

  /** A checkout that links the customer to an organization. */
  function Checkout(org: nat, id: string): Request {
    Deliver(Event(id, CheckoutCompleted, Named(org), "", "cus", "", None, "", None, ""), false)
  }

  function Opening(user: nat): State {
    Initial(map[user := "o@x"], [Plan(FREE, "", Some(3), Some(3), true)], 0)
  }

  function Setup(user: nat): seq<Request> {
    [CreateOrg(user, "a", "a", 1), CreateOrg(user, "b", "b", 2), Checkout(1, "c1"), Checkout(2, "c2")]
  }

  lemma Created(s: State, user: nat, name: string, pk: nat)
    requires user in s.users && name != "" && name !in TakenSlugs(s.orgs)
    ensures Next(s, CreateOrg(user, name, name, pk)) == InsertOrg(s, pk, user, name, name)
  {
    Slugs.FreeSlugUnique(name, 0, TakenSlugs(s.orgs));
  }

  lemma Linked(s: State, org: nat, id: string)
    requires SubKeys(s.subs, org) == {org} && id !in s.ledger
    ensures Next(s, Checkout(org, id)) ==
            s.(ledger := s.ledger + {id},
               subs := s.subs[org := Scoped(org, s.subs[org].row.(customerId := "cus", status := Active))])
  {
  }

  lemma BothCreated(user: nat) returns (s: State)
    ensures s == Next(Next(Opening(user), Setup(user)[0]), Setup(user)[1])
    ensures var sub := Subscription(FREE, "", "", Active, None);
            s == SharedCustomer(user).(subs := map[1 := Scoped(1, sub), 2 := Scoped(2, sub)], ledger := {})
  {
    var s0 := Opening(user);
    assert s0.plans[0].code == FREE;
    Created(s0, user, "a", 1);
    var s1 := InsertOrg(s0, 1, user, "a", "a");
    assert s1.subs == map[1 := Scoped(1, Subscription(FREE, "", "", Active, None))];
    Created(s1, user, "b", 2);
    s := InsertOrg(s1, 2, user, "b", "b");
    assert s.subs == s1.subs[2 := Scoped(2, Subscription(FREE, "", "", Active, None))];
  }

  function WithCustomer(sub: Scoped<Subscription>): Scoped<Subscription> {
    Scoped(sub.org, sub.row.(customerId := "cus", status := Active))
  }

  lemma BothLinked(s: State)
    requires SubKeys(s.subs, 1) == {1} && SubKeys(s.subs, 2) == {2} && s.ledger == {}
    ensures 1 in s.subs && 2 in s.subs
    ensures Next(Next(s, Checkout(1, "c1")), Checkout(2, "c2")) ==
            s.(ledger := {"c1", "c2"}, subs := s.subs[1 := WithCustomer(s.subs[1])][2 := WithCustomer(s.subs[2])])
  {
    assert 1 in SubKeys(s.subs, 1) && 2 in SubKeys(s.subs, 2);
    Linked(s, 1, "c1");
    var t := Next(s, Checkout(1, "c1"));
    assert SubKeys(t.subs, 2) == {2};
    Linked(t, 2, "c2");
  }

  lemma SetupEnds(user: nat) returns (s: State)
    ensures s == Next(Next(Opening(user), CreateOrg(user, "a", "a", 1)), CreateOrg(user, "b", "b", 2))
    ensures Next(Next(s, Checkout(1, "c1")), Checkout(2, "c2")) == SharedCustomer(user)
  {
    s := BothCreated(user);
    BothLinked(s);
  }

  /** That state is one that requests reach. */
  lemma SharedCustomerReached(user: nat)
    ensures Run(Opening(user), Setup(user)) == SharedCustomer(user) && Paced(0, Setup(user))
  {
    var _ := SetupEnds(user);
    RunOfFour(Opening(user), Setup(user));
    assert Paced(3, Setup(user)[1..][1..][1..]);
  }

  lemma RunOfFour(s: State, rs: seq<Request>)
    requires |rs| == 4
    ensures Run(s, rs) == Next(Next(Next(Next(s, rs[0]), rs[1]), rs[2]), rs[3])
  {
    var t := Next(Next(s, rs[0]), rs[1]);
    assert Run(t, rs[2..]) == Run(Next(t, rs[2]), rs[2..][1..]);
  }

  const PAYMENT_FAILED := Event("e", PaymentFailed, Absent, "", "cus", "", None, "", None, "")

  lemma FirstDeleted(user: nat)
    ensures Next(SharedCustomer(user), DestroyOrg(user, 1)) == DropOrg(SharedCustomer(user), 1)
  {
    assert UserKeys(SharedCustomer(user).members, user, 1) == {1};
  }

  /** The event hits the oldest subscription of its customer. */
  lemma OldestIsHit(s: State, oldest: nat)
    requires CustomerKeys(s.subs, "cus") != {} && First(CustomerKeys(s.subs, "cus")) == Some(oldest)
    requires "e" !in s.ledger
    ensures var after := Next(s, Deliver(PAYMENT_FAILED, false)).subs;
            after == s.subs[oldest := s.subs[oldest].(row := s.subs[oldest].row.(status := PastDue))]
  {
    assert Find(s.subs, PAYMENT_FAILED) == Some(oldest);
  }

  /** Interference without the condition: a payment failure that is organization 1's becomes
      organization 2's when organization 1 has been deleted before it. */
  lemma SharedCustomerInterferes(user: nat)
    ensures var s, failed := SharedCustomer(user), Deliver(PAYMENT_FAILED, false);
            && Next(s, failed).subs[2].row.status == Active
            && 2 in Next(Next(s, DestroyOrg(user, 1)), failed).subs
            && Next(Next(s, DestroyOrg(user, 1)), failed).subs[2].row.status == PastDue
  {
    var s := SharedCustomer(user);
    assert CustomerKeys(s.subs, "cus") == {1, 2};
    OldestIsHit(s, 1);
    FirstDeleted(user);
    OthersLeft(user);
    OldestIsHit(DropOrg(s, 1), 2);
  }

  lemma OthersLeft(user: nat)
    ensures var subs := DropOrg(SharedCustomer(user), 1).subs;
            subs == map[2 := SharedCustomer(user).subs[2]] && CustomerKeys(subs, "cus") == {2}
  {
    var t := DropOrg(SharedCustomer(user), 1);
    assert t.subs == map[2 := SharedCustomer(user).subs[2]];
  }

  /* ----- runs ----- */

  /** The requests of a run that are the organization's own. */
  function OwnPart(s: State, org: nat, rs: seq<Request>): seq<Request>
    decreases |rs|
  {
    if rs == [] then []
    else
      var rest := OwnPart(Next(s, rs[0]), org, rs[1..]);
      if Own(s, org, rs[0]) then [rs[0]] + rest else rest
  }

  /** The answers a run gives to the organization's own requests. */
  function OwnAnswers(s: State, org: nat, rs: seq<Request>): seq<Answer>
    decreases |rs|
  {
    if rs == [] then []
    else
      var rest := OwnAnswers(Next(s, rs[0]), org, rs[1..]);
      if Own(s, org, rs[0]) then [Decide(s, rs[0]).answer] + rest else rest
  }

  /** Every answer a run gives. */
  function Answers(s: State, rs: seq<Request>): seq<Answer>
    decreases |rs|
  {
    if rs == [] then [] else [Decide(s, rs[0]).answer] + Answers(Next(s, rs[0]), rs[1..])
  }

  /** A delivery that is handled is clear for the organization in the database it comes to. */
  predicate ClearStep(s: State, org: nat, r: Request) {
    r.Deliver? && Decide(s, r).change.Recorded? ==> Clear(s, org, r.event)
  }

  predicate ClearRun(s: State, org: nat, rs: seq<Request>)
    decreases |rs|
  {
    rs == [] || (ClearStep(s, org, rs[0]) && ClearRun(Next(s, rs[0]), org, rs[1..]))
  }

  /** What a request does to the organization when it is alone: another's request does nothing. */
  function NextAlone(s: State, alone: State, org: nat, r: Request): State {
    if Own(s, org, r) then Next(alone, r) else alone
  }

  /** One API request: the organization's rows change as they would were it alone, and another
      organization's request does not change them. */
  lemma RequestConfined(s: State, bound: nat, org: nat, r: Request)
    requires UniqueTokens(s.invites) && Below(s, bound) && Fresh(bound, r) && org < bound && !r.Deliver?
    ensures Confine(Next(s, r), org) == NextAlone(s, Confine(s, org), org, r)
  {
    var d := Decide(s, r);
    if Own(s, org, r) {
      DecideConfined(s, org, r);
      OwnTarget(s, org, r);
    } else {
      ForeignTarget(s, bound, org, r);
    }
    DecisionConfined(s, bound, org, r, d);
  }

  lemma DecisionConfined(s: State, bound: nat, org: nat, r: Request, d: Decision)
    requires Below(s, bound) && Fresh(bound, r) && org < bound && !r.Deliver? && d == Decide(s, r)
    requires !d.change.Recorded?
    ensures Confine(Apply(s, d.change), org) ==
            if Target(s, d.change) == Some(org) then Apply(Confine(s, org), d.change) else Confine(s, org)
  {
    DecideJustified(s, r);
    DecideFresh(s, bound, r);
    WriteConfined(s, bound, r.actor, d.change, org);
  }

  /** The same holds of a delivery if and only if it is clear. */
  lemma StepConfined(s: State, bound: nat, org: nat, r: Request)
    requires UniqueTokens(s.invites) && Below(s, bound) && Fresh(bound, r) && org < bound
    ensures Confine(Next(s, r), org) == NextAlone(s, Confine(s, org), org, r) <==> ClearStep(s, org, r)
  {
    if r.Deliver? {
      DecideConfined(s, org, r);
      if Clear(s, org, r.event) {
        EventConfined(s, org, r.event);
      } else {
        UnclearEvent(s, org, r.event);
      }
    } else {
      RequestConfined(s, bound, org, r);
    }
  }

  /** A tenant cannot tell that others exist: after any run whose deliveries are clear for it, its
      rows and the answers to its own requests are those of running only its own requests in a
      database of its own. */
  lemma {:induction false} TenantAlone(s: State, bound: nat, org: nat, rs: seq<Request>)
    requires Inv(s) && Below(s, bound) && Paced(bound, rs) && org < bound && ClearRun(s, org, rs)
    ensures Confine(Run(s, rs), org) == Run(Confine(s, org), OwnPart(s, org, rs))
    ensures OwnAnswers(s, org, rs) == Answers(Confine(s, org), OwnPart(s, org, rs))
    decreases |rs|
  {
    if rs != [] {
      var r, t := rs[0], Next(s, rs[0]);
      StepKeeps(s, bound, r);
      StepBelow(s, bound, r);
      StepConfined(s, bound, org, r);
      TenantAlone(t, Bump(bound, r), org, rs[1..]);
      if Own(s, org, r) {
        DecideConfined(s, org, r);
        var own := OwnPart(s, org, rs);
        assert own[0] == r && own[1..] == OwnPart(t, org, rs[1..]);
      }
    }
  }

  /** Before the run and after each of its requests, the organization's rows are those of `alone`,
      which goes through its own requests only. */
  ghost predicate AloneThroughout(s: State, alone: State, org: nat, rs: seq<Request>)
    decreases |rs|
  {
    && Confine(s, org) == alone
    && (rs != [] ==> AloneThroughout(Next(s, rs[0]), NextAlone(s, alone, org, rs[0]), org, rs[1..]))
  }

  /** The condition is exact: the organization is throughout as if alone if and only if the
      deliveries of the run are clear for it. */
  lemma {:induction false} AloneExactly(s: State, bound: nat, org: nat, rs: seq<Request>)
    requires Inv(s) && Below(s, bound) && Paced(bound, rs) && org < bound
    ensures AloneThroughout(s, Confine(s, org), org, rs) <==> ClearRun(s, org, rs)
    decreases |rs|
  {
    if rs != [] {
      var r, t := rs[0], Next(s, rs[0]);
      StepKeeps(s, bound, r);
      StepBelow(s, bound, r);
      StepConfined(s, bound, org, r);
      if ClearStep(s, org, r) {
        AloneExactly(t, Bump(bound, r), org, rs[1..]);
      } else {
        assert Confine(t, org) != NextAlone(s, Confine(s, org), org, r);
      }
    }
  }

  /** Non-interference: two runs, from databases that agree on an organization's rows, that
      contain the same requests of its own in the same order leave it the same rows and give
      it the same answers, whatever other tenants do in either. */
  lemma NonInterference(s: State, t: State, bound: nat, org: nat, rs: seq<Request>, qs: seq<Request>)
    requires Inv(s) && Below(s, bound) && Paced(bound, rs) && ClearRun(s, org, rs)
    requires Inv(t) && Below(t, bound) && Paced(bound, qs) && ClearRun(t, org, qs)
    requires org < bound && Confine(s, org) == Confine(t, org)
    requires OwnPart(s, org, rs) == OwnPart(t, org, qs)
    ensures Confine(Run(s, rs), org) == Confine(Run(t, qs), org)
    ensures OwnAnswers(s, org, rs) == OwnAnswers(t, org, qs)
  {
    TenantAlone(s, bound, org, rs);
    TenantAlone(t, bound, org, qs);
  }

  /** What is the organization's own depends on its own rows only. */
  lemma OwnConfined(s: State, t: State, org: nat, r: Request)
    requires Confine(s, org) == Confine(t, org)
    ensures Own(s, org, r) <==> Own(t, org, r)
  {
  }

  lemma FreshLower(bound: nat, low: nat, r: Request)
    requires Fresh(bound, r) && low <= bound
    ensures Fresh(low, r) && Bump(low, r) <= Bump(bound, r)
  {
  }

  lemma StepAgain(t: State, low: nat, org: nat, r: Request)
    requires Inv(t) && Below(t, low) && Fresh(low, r) && org < low && Own(t, org, r) && ClearStep(t, org, r)
    ensures Inv(Next(t, r)) && Below(Next(t, r), Bump(low, r))
    ensures Confine(Next(t, r), org) == Next(Confine(t, org), r)
  {
    StepKeeps(t, low, r);
    StepBelow(t, low, r);
    StepConfined(t, low, org, r);
  }

  lemma OwnFirst(t: State, low: nat, org: nat, r: Request, rest: seq<Request>)
    requires Fresh(low, r) && Own(t, org, r)
    requires Paced(Bump(low, r), rest) && OwnPart(Next(t, r), org, rest) == rest
    ensures var own := [r] + rest; Paced(low, own) && OwnPart(t, org, own) == own
  {
    assert ([r] + rest)[1..] == rest;
  }

  lemma OwnRest(s: State, org: nat, rs: seq<Request>)
    requires rs != []
    ensures var own, rest := OwnPart(s, org, rs), OwnPart(Next(s, rs[0]), org, rs[1..]);
            if Own(s, org, rs[0]) then own != [] && own[0] == rs[0] && own[1..] == rest else own == rest
  {
  }

  /** Deleting every request of other tenants gives a run of the organization's own requests. */
  lemma {:induction false} DeletingOthers(s: State, t: State, bound: nat, low: nat, org: nat, rs: seq<Request>)
    requires Inv(s) && Below(s, bound) && Paced(bound, rs) && ClearRun(s, org, rs)
    requires Inv(t) && Below(t, low) && org < low <= bound && Confine(s, org) == Confine(t, org)
    requires ClearRun(t, org, OwnPart(s, org, rs))
    ensures var own := OwnPart(s, org, rs); Paced(low, own) && OwnPart(t, org, own) == own
    decreases |rs|
  {
    if rs != [] {
      var r := rs[0];
      StepKeeps(s, bound, r);
      StepBelow(s, bound, r);
      StepConfined(s, bound, org, r);
      OwnConfined(s, t, org, r);
      OwnRest(s, org, rs);
      if Own(s, org, r) {
        FreshLower(bound, low, r);
        StepAgain(t, low, org, r);
        DeletingOthers(Next(s, r), Next(t, r), Bump(bound, r), Bump(low, r), org, rs[1..]);
        OwnFirst(t, low, org, r, OwnPart(Next(s, r), org, rs[1..]));
      } else {
        DeletingOthers(Next(s, r), t, Bump(bound, r), low, org, rs[1..]);
      }
    }
  }

  /** Dropping all requests that are not the organization's own from a run changes neither the
      rows it ends with nor any answer it gets, if the deliveries are clear for it in both. */
  lemma OthersDoNotMatter(s: State, bound: nat, org: nat, rs: seq<Request>)
    requires Inv(s) && Below(s, bound) && Paced(bound, rs) && org < bound
    requires ClearRun(s, org, rs) && ClearRun(s, org, OwnPart(s, org, rs))
    ensures var own := OwnPart(s, org, rs);
            && Confine(Run(s, own), org) == Confine(Run(s, rs), org)
            && OwnAnswers(s, org, own) == OwnAnswers(s, org, rs)
  {
    var own := OwnPart(s, org, rs);
    DeletingOthers(s, s, bound, bound, org, rs);
    NonInterference(s, s, bound, org, rs, own);
  }

  /* ----- when no Stripe id belongs to two organizations ----- */

  ghost predicate ProperRun(owners: Owners, rs: seq<Request>) {
    forall r :: r in rs && r.Deliver? ==> Proper(owners, r.event)
  }

  /** A write that records no event leaves rows as they are, removes some, or adds a blank one. */
  lemma OwnIdsWrite(owners: Owners, s: State, c: Change)
    requires OwnIds(owners, s.subs) && !c.Recorded?
    ensures OwnIds(owners, Apply(s, c).subs)
  {
  }

  lemma OwnIdsStep(owners: Owners, s: State, r: Request)
    requires OwnIds(owners, s.subs) && (r.Deliver? ==> Proper(owners, r.event))
    ensures OwnIds(owners, Next(s, r).subs)
  {
    if r.Deliver? {
      OwnIdsKept(owners, s.plans, s.subs, r.event);
    } else {
      OnlyDeliveriesRecord(s, r);
      OwnIdsWrite(owners, s, Decide(s, r).change);
    }
  }

  /** When every event carries ids of one organization only, every delivery of every run is clear
      for every organization; rows without any id, such as those of no organization, are a
      place to start. */
  lemma {:induction false} ProperIsClear(owners: Owners, s: State, org: nat, rs: seq<Request>)
    requires OwnIds(owners, s.subs) && ProperRun(owners, rs)
    ensures ClearRun(s, org, rs)
    decreases |rs|
  {
    if rs != [] {
      var r := rs[0];
      if r.Deliver? && !r.event.kind.Unhandled? && !Raises(r.event) {
        ProperNotShadowed(owners, s.subs, r.event, org);
      }
      OwnIdsStep(owners, s, r);
      ProperIsClear(owners, Next(s, r), org, rs[1..]);
    }
  }

  lemma {:induction false} OwnPartOf(s: State, org: nat, rs: seq<Request>)
    ensures forall r :: r in OwnPart(s, org, rs) ==> r in rs
    decreases |rs|
  {
    if rs != [] {
      OwnPartOf(Next(s, rs[0]), org, rs[1..]);
    }
  }

  /** Isolation from conditions on the events alone: when no event carries ids of two
      organizations, other tenants' requests can be dropped from any run. */
  lemma OwnIdsIsolate(owners: Owners, s: State, bound: nat, org: nat, rs: seq<Request>)
    requires Inv(s) && Below(s, bound) && Paced(bound, rs) && org < bound
    requires OwnIds(owners, s.subs) && ProperRun(owners, rs)
    ensures var own := OwnPart(s, org, rs);
            && Confine(Run(s, own), org) == Confine(Run(s, rs), org) == Run(Confine(s, org), own)
            && OwnAnswers(s, org, own) == OwnAnswers(s, org, rs) == Answers(Confine(s, org), own)
  {
    OwnPartOf(s, org, rs);
    ProperIsClear(owners, s, org, rs);
    ProperIsClear(owners, s, org, OwnPart(s, org, rs));
    OthersDoNotMatter(s, bound, org, rs);
    TenantAlone(s, bound, org, rs);
  }

  /** An id that belongs to another organization answers like an id that does not exist. */
  lemma ForeignIdIsMissing(s: State, org: nat, actor: nat, id: nat, missing: nat, role: Option<Role>, name: string)
    requires id in s.members ==> s.members[id].org != org
    requires id in s.projects ==> s.projects[id].org != org
    requires missing !in s.members && missing !in s.projects
    ensures DoChangeRole(s, actor, org, id, role) == DoChangeRole(s, actor, org, missing, role)
    ensures DoRemoveMember(s, actor, org, id) == DoRemoveMember(s, actor, org, missing)
    ensures DoGetProject(s, actor, Some(org), id) == DoGetProject(s, actor, Some(org), missing)
    ensures DoUpdateProject(s, actor, Some(org), id, name) == DoUpdateProject(s, actor, Some(org), missing, name)
    ensures DoDestroyProject(s, actor, Some(org), id) == DoDestroyProject(s, actor, Some(org), missing)
  {
  }
}
