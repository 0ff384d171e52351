/** The endpoints that change rows, as the views run them: fetch, check, assign, save. Each
    method is tied to the request's specification in Requests. */
module Store {
  import opened Models
  import opened Rbac
  import opened Billing
  import opened Requests

  class Database {
    const users: map<nat, string>
    const plans: seq<Plan>
    const lifetime: int
    var orgs: map<nat, Organization>
    var members: Table<Membership>
    var invites: Table<Invitation>
    var projects: Table<Project>
    var subs: Table<Subscription>
    var ledger: set<string>

    ghost function Snapshot(): State
      reads this
    {
      State(users, plans, lifetime, orgs, members, invites, projects, subs, ledger)
    }

    constructor (users: map<nat, string>, plans: seq<Plan>, lifetime: int)
      ensures Snapshot() == State(users, plans, lifetime, map[], map[], map[], map[], map[], {})
    {
      this.users, this.plans, this.lifetime := users, plans, lifetime;
      orgs, members, invites, projects, subs, ledger := map[], map[], map[], map[], map[], {};
    }

    /** Give a new organization its Free subscription, unless the Free plan is missing. */
    method CreateFreeSubscription(org: nat, pk: nat)
      modifies `subs
      ensures subs == if FreeSeeded(plans) && SubKeys(old(subs), org) == {}
                      then old(subs)[pk := Scoped(org, Subscription(FREE, "", "", Active, None))]
                      else old(subs)
    {
      var free := PlanByCode(plans, FREE);
      if free.None? {
        return;
      }
      if SubKeys(subs, org) != {} {
        return;
      }
      subs := subs[pk := Scoped(org, Subscription(free.value.code, "", "", Active, None))];
    }

    /** One transaction: insert the organization, which creates its subscription, and the
        creator's Owner membership. It fails as a whole when the slug is taken. */
    method InsertOrgWithOwner(pk: nat, actor: nat, name: string, slug: string) returns (inserted: bool)
      modifies this
      ensures inserted <==> slug !in TakenSlugs(old(orgs))
      ensures Snapshot() == if inserted then InsertOrg(old(Snapshot()), pk, actor, name, slug)
                                        else old(Snapshot())
    {
      if slug in TakenSlugs(orgs) {
        return false;
      }
      orgs := orgs[pk := Organization(name, slug, actor)];
      CreateFreeSubscription(pk, pk);
      members := members[pk := Scoped(pk, Membership(actor, Owner))];
      inserted := true;
    }

    method DestroyOrg(actor: nat, org: nat) returns (answer: Answer)
      modifies this
      ensures Outcome(Snapshot(), answer) == Commit(old(Snapshot()), DoDestroyOrg(old(Snapshot()), actor, org))
    {
      var role := CallerRole(members, actor, org);
      if role.None? {
        return NotFound;
      }
      if role.value != Owner {
        return Forbidden;
      }
      members, invites := Without(members, org), Without(invites, org);
      projects, subs := Without(projects, org), Without(subs, org);
      orgs := orgs - {org};
      answer := NoContent;
    }

    /** Remove a membership, unless the model layer refuses to. */
    method DeleteMembership(member: nat) returns (raised: bool)
      requires member in members
      modifies `members
      ensures raised == DeleteRaises(old(members), member)
      ensures members == if raised then old(members) else old(members) - {member}
    {
      if DeleteRaises(members, member) {
        return true;
      }
      members := members - {member};
      raised := false;
    }

    method RemoveMember(actor: nat, org: nat, member: nat) returns (answer: Answer)
      modifies `members
      ensures Outcome(Snapshot(), answer) ==
              Commit(old(Snapshot()), DoRemoveMember(old(Snapshot()), actor, org, member))
    {
      var role := CallerRole(members, actor, org);
      if role.None? {
        return NotFound;
      }
      if member !in members || members[member].org != org {
        return NotFound;
      }
      if !CanManageMember(role.value, members[member].row.role) {
        return Forbidden;
      }
      if IsLastOwner(members, member) {
        return BadRequest(LastOwnerRemoved);
      }
      var raised := DeleteMembership(member);
      // The view has already refused what the model would refuse.
      assert !raised;
      answer := NoContent;
    }

    method ChangeRole(actor: nat, org: nat, member: nat, role: Option<Role>) returns (answer: Answer)
      modifies `members
      ensures Outcome(Snapshot(), answer) ==
              Commit(old(Snapshot()), DoChangeRole(old(Snapshot()), actor, org, member, role))
    {
      var caller := CallerRole(members, actor, org);
      if caller.None? {
        return NotFound;
      }
      if member !in members || members[member].org != org {
        return NotFound;
      }
      var target := members[member].row;
      if !CanManageMember(caller.value, target.role) {
        return Forbidden;
      }
      if role.None? {
        return BadRequest(InvalidPayload);
      }
      if !CanAssignRole(caller.value, role.value) {
        return Forbidden;
      }
      if target.role == Owner && role.value != Owner && IsLastOwner(members, member) {
        return BadRequest(LastOwnerDemoted);
      }
      target := target.(role := role.value);
      members := members[member := Scoped(org, target)];
      answer := MemberBody(member, target);
    }

    /** The check before an invitation: members and pending invitations against the cap. */
    method CheckCanInvite(org: nat) returns (allowed: bool)
      ensures allowed == !Full(Seats(Snapshot(), org), MemberCap(plans, subs, org))
    {
      var limit := MemberCap(plans, subs, org);
      if limit.None? {
        return true;
      }
      var current := |MemberKeys(members, org)|;
      var pending := |PendingKeys(invites, org)|;
      allowed := current + pending < limit.value;
    }

    method Invite(actor: nat, org: nat, email: string, role: Option<Role>, now: int, pk: nat, token: nat)
      returns (answer: Answer)
      modifies `invites
      ensures Outcome(Snapshot(), answer) ==
              Commit(old(Snapshot()), DoInvite(old(Snapshot()), actor, org, email, role, now, pk, token))
    {
      var caller := CallerRole(members, actor, org);
      if caller.None? {
        return NotFound;
      }
      if !IsManager(caller.value) {
        return Forbidden;
      }
      if role.None? {
        return BadRequest(InvalidPayload);
      }
      var address := Fold(email);
      if !CanAssignRole(caller.value, role.value) {
        return Forbidden;
      }
      FoldIdempotent(email);
      if exists m :: m in members && members[m].org == org && members[m].row.user in users
                     && Fold(users[members[m].row.user]) == Fold(address) {
        ghost var m :| m in members && members[m].org == org && members[m].row.user in users
                       && Fold(users[members[m].row.user]) == Fold(address);
        assert m in MembersByEmail(users, members, org, email);
        return BadRequest(AlreadyMember);
      }
      assert MembersByEmail(users, members, org, email) == {};
      if PendingByEmail(invites, org, address) != {} {
        assert PendingByEmail(invites, org, address) == PendingByEmail(invites, org, email);
        return BadRequest(AlreadyPending);
      }
      assert PendingByEmail(invites, org, address) == PendingByEmail(invites, org, email);
      var allowed := CheckCanInvite(org);
      if !allowed {
        return PaymentRequired;
      }
      var invitation := Invitation(address, role.value, token, Pending, actor, now + lifetime);
      invites := invites[pk := Scoped(org, invitation)];
      answer := InvitationBody(pk, invitation);
    }

    method Accept(actor: nat, token: nat, now: int, pk: nat) returns (answer: Answer)
      requires actor in users
      modifies `invites, `members
      ensures Outcome(Snapshot(), answer) ==
              Commit(old(Snapshot()), DoAccept(old(Snapshot()), actor, token, now, pk))
    {
      var key := First(TokenKeys(invites, token));
      if key.None? || invites[key.value].row.status != Pending {
        return BadRequest(InvalidInvitation);
      }
      var invitation, org := invites[key.value].row, invites[key.value].org;
      var expired := false;
      if IsExpired(invitation, now) {
        invitation := invitation.(status := Expired);
        invites := invites[key.value := Scoped(org, invitation)];
        expired := true;
      } else if Fold(users[actor]) != Fold(invitation.email) {
        return BadRequest(InvalidInvitation);
      } else {
        var existing := First(UserKeys(members, actor, org));
        if existing.Some? {
          answer := MemberBody(existing.value, members[existing.value].row);
        } else {
          var member := Membership(actor, invitation.role);
          members := members[pk := Scoped(org, member)];
          answer := MemberBody(pk, member);
        }
        invitation := invitation.(status := Accepted);
        invites := invites[key.value := Scoped(org, invitation)];
      }
      if expired {
        answer := BadRequest(ExpiredInvitation);
      }
    }

    method CreateProject(actor: nat, header: Option<nat>, name: string, pk: nat) returns (answer: Answer)
      modifies `projects
      ensures Outcome(Snapshot(), answer) ==
              Commit(old(Snapshot()), DoCreateProject(old(Snapshot()), actor, header, name, pk))
    {
      var request := new ProjectContext();
      var permitted := request.HasPermission(this, actor, header);
      if !permitted {
        return Forbidden;
      }
      if name == "" {
        return BadRequest(InvalidPayload);
      }
      var org := request.organization;
      var limit := ProjectCap(plans, subs, org);
      if limit.Some? && |ProjectKeys(projects, org)| >= limit.value {
        return PaymentRequired;
      }
      var project := Project(name, actor);
      projects := projects[pk := Scoped(org, project)];
      answer := ProjectBody(pk, project);
    }

    method DestroyProject(actor: nat, header: Option<nat>, project: nat) returns (answer: Answer)
      modifies `projects
      ensures Outcome(Snapshot(), answer) ==
              Commit(old(Snapshot()), DoDestroyProject(old(Snapshot()), actor, header, project))
    {
      var request := new ProjectContext();
      var permitted := request.HasPermission(this, actor, header);
      if !permitted {
        return Forbidden;
      }
      if project !in Of(projects, request.organization) {
        return NotFound;
      }
      if !IsManager(members[request.membership].row.role) && projects[project].row.createdBy != actor {
        return Forbidden;
      }
      projects := projects - {project};
      answer := NoContent;
    }

    /* ----- the webhook ----- */

    method HandleCheckoutCompleted(e: Event)
      requires e.kind == CheckoutCompleted && !Raises(e)
      modifies `subs
      ensures subs == HandleEvent(plans, old(subs), e)
    {
      var key := Find(subs, e);
      if key.None? {
        return;
      }
      var sub := subs[key.value].row;
      sub := sub.(customerId := Or(e.customer, sub.customerId));
      sub := sub.(subscriptionId := Or(e.subscription, sub.subscriptionId));
      var plan := ActivePlanByCode(plans, e.planCode);
      if plan.Some? {
        sub := sub.(plan := plan.value.code);
      }
      sub := sub.(status := Active);
      subs := subs[key.value := Scoped(subs[key.value].org, sub)];
    }

    method HandleSubscriptionUpdated(e: Event)
      requires e.kind == SubscriptionUpdated && !Raises(e)
      modifies `subs
      ensures subs == HandleEvent(plans, old(subs), e)
    {
      var key := Find(subs, e);
      if key.None? {
        return;
      }
      var sub := subs[key.value].row;
      if e.objectId != "" {
        sub := sub.(subscriptionId := e.objectId);
      }
      sub := sub.(status := MapStatus(e.status, sub.status));
      sub := sub.(periodEnd := PeriodEnd(e, sub.periodEnd));
      var plan := PlanForPrice(plans, e.price);
      if plan.Some? {
        sub := sub.(plan := plan.value.code);
      }
      subs := subs[key.value := Scoped(subs[key.value].org, sub)];
    }

    method HandleSubscriptionDeleted(e: Event)
      requires e.kind == SubscriptionDeleted && !Raises(e)
      modifies `subs
      ensures subs == HandleEvent(plans, old(subs), e)
    {
      var key := Find(subs, e);
      if key.None? {
        return;
      }
      var sub := subs[key.value].row.(status := Canceled);
      var free := PlanByCode(plans, FREE);
      if free.Some? {
        sub := sub.(plan := free.value.code);
      }
      sub := sub.(subscriptionId := "");
      subs := subs[key.value := Scoped(subs[key.value].org, sub)];
    }

    method HandlePaymentFailed(e: Event)
      requires e.kind == PaymentFailed && !Raises(e)
      modifies `subs
      ensures subs == HandleEvent(plans, old(subs), e)
    {
      var key := Find(subs, e);
      if key.None? {
        return;
      }
      var sub := subs[key.value].row.(status := PastDue);
      subs := subs[key.value := Scoped(subs[key.value].org, sub)];
    }

    /** Record the event id, dispatch to the handler, and roll both back on a failure. */
    method PostWebhook(e: Event, crash: bool) returns (answer: Answer)
      modifies `ledger, `subs
      ensures Outcome(Snapshot(), answer) ==
              Commit(old(Snapshot()), DoDeliver(old(Snapshot()), e, crash))
    {
      var savedLedger, savedSubs := ledger, subs;
      if e.id in ledger {
        return AlreadyProcessed;
      }
      ledger := ledger + {e.id};
      if Raises(e) {
        ledger := savedLedger;
        return ServerError;
      }
      match e.kind {
        case CheckoutCompleted => HandleCheckoutCompleted(e);
        case SubscriptionUpdated => HandleSubscriptionUpdated(e);
        case SubscriptionDeleted => HandleSubscriptionDeleted(e);
        case PaymentFailed => HandlePaymentFailed(e);
        case Unhandled =>
      }
      if crash {
        ledger, subs := savedLedger, savedSubs;
        return ServerError;
      }
      answer := Processed;
    }
  }

  /** What the membership permission attaches to a request. */
  class ProjectContext {
    var organization: nat
    var membership: nat

    constructor () {
    }

    method HasPermission(db: Database, actor: nat, header: Option<nat>) returns (permitted: bool)
      modifies this
      ensures permitted <==> ActiveOrg(db.Snapshot(), actor, header).Some?
      ensures permitted ==> ActiveOrg(db.Snapshot(), actor, header) == Some(organization)
      ensures permitted ==> membership in UserKeys(db.members, actor, organization)
      ensures permitted ==> CallerRole(db.members, actor, organization) == Some(db.members[membership].row.role)
    {
      if header.None? {
        return false;
      }
      var found := First(UserKeys(db.members, actor, header.value));
      if found.None? {
        return false;
      }
      organization, membership := header.value, found.value;
      permitted := true;
    }
  }
}
