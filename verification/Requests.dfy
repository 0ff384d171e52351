/** What each API request and webhook delivery does to the database when requests run one
    at a time, and runs of such requests. The clock, the number given to a new row and the
    token of a new invitation are inputs, so a run is a function of its requests. */
module Requests {
  import opened Models
  import opened Rbac
  import opened Billing
  import Slugs

  /** `actor` is the authenticated user. `header` is the organization id of the
      X-Organization-ID header, None when it is missing or not a number. A role of None stands
      for a payload the serializer rejects. `pk` numbers the rows the request inserts. `crash` says
      that handling the event fails, whatever the cause. */
  datatype Request =
    | CreateOrg(actor: nat, name: string, base: string, pk: nat)
    | UpdateOrg(actor: nat, org: nat, name: string)
    | DestroyOrg(actor: nat, org: nat)
    | ListMembers(actor: nat, org: nat)
    | ChangeRole(actor: nat, org: nat, member: nat, role: Option<Role>)
    | RemoveMember(actor: nat, org: nat, member: nat)
    | ListInvitations(actor: nat, org: nat)
    | Invite(actor: nat, org: nat, email: string, role: Option<Role>, now: int, pk: nat, token: nat)
    | Accept(actor: nat, token: nat, now: int, pk: nat)
    | ListProjects(actor: nat, header: Option<nat>)
    | GetProject(actor: nat, header: Option<nat>, project: nat)
    | CreateProject(actor: nat, header: Option<nat>, name: string, pk: nat)
    | UpdateProject(actor: nat, header: Option<nat>, project: nat, name: string)
    | DestroyProject(actor: nat, header: Option<nat>, project: nat)
    | Deliver(event: Event, crash: bool)

  datatype Reason = InvalidPayload | LastOwnerRemoved | LastOwnerDemoted | AlreadyMember
                  | AlreadyPending | InvalidInvitation | ExpiredInvitation

  datatype Answer =
    | OrgBody(pk: nat, org: Organization)
    | MemberBody(pk: nat, member: Membership)
    | InvitationBody(pk: nat, invitation: Invitation)
    | ProjectBody(pk: nat, project: Project)
    | Members(members: Table<Membership>)
    | Invitations(invitations: Table<Invitation>)
    | Projects(projects: Table<Project>)
    | NoContent
    | Processed
    | AlreadyProcessed
    | BadRequest(reason: Reason)
    | Unauthorized
    | PaymentRequired
    | Forbidden
    | NotFound
    | ServerError

  /** What a request writes. Rows are given as they are after the write. */
  datatype Change =
    | Nothing
    | OrgInserted(pk: nat, actor: nat, name: string, slug: string)
    | OrgSaved(org: nat, saved: Organization)
    | OrgDropped(org: nat)
    | RoleSaved(member: nat, org: nat, membership: Membership)
    | MemberRemoved(member: nat)
    | Invited(pk: nat, org: nat, invitation: Invitation)
    | MarkedExpired(key: nat, org: nat, spent: Invitation)
    | Joined(key: nat, org: nat, spent: Invitation, pk: nat, membership: Membership)
    | Rejoined(key: nat, org: nat, spent: Invitation)
    | ProjectInserted(pk: nat, org: nat, project: Project)
    | ProjectSaved(pk: nat, org: nat, project: Project)
    | ProjectRemoved(pk: nat)
    | Recorded(event: Event)

  /** What a request writes and what it answers. */
  datatype Decision = Decision(change: Change, answer: Answer)

  datatype Outcome = Outcome(state: State, answer: Answer)

  function Refuse(answer: Answer): Decision {
    Decision(Nothing, answer)
  }

  /* ----- writing ----- */

  function TakenSlugs(orgs: map<nat, Organization>): set<string> {
    set pk | pk in orgs :: orgs[pk].slug
  }

  /** The rows a new organization brings: itself, its creator as Owner, and a Free
      subscription when the Free plan is seeded and there is none yet. */
  function InsertOrg(s: State, pk: nat, actor: nat, name: string, slug: string): State {
    s.(orgs := s.orgs[pk := Organization(name, slug, actor)],
       members := s.members[pk := Scoped(pk, Membership(actor, Owner))],
       subs := if FreeSeeded(s.plans) && SubKeys(s.subs, pk) == {}
               then s.subs[pk := Scoped(pk, Subscription(FREE, "", "", Active, None))]
               else s.subs)
  }

  /** Deleting an organization deletes every row that refers to it. */
  function DropOrg(s: State, org: nat): State {
    s.(orgs := s.orgs - {org},
       members := Without(s.members, org),
       invites := Without(s.invites, org),
       projects := Without(s.projects, org),
       subs := Without(s.subs, org))
  }

  function Apply(s: State, c: Change): State {
    match c
    case Nothing => s
    case OrgInserted(pk, actor, name, slug) => InsertOrg(s, pk, actor, name, slug)
    case OrgSaved(org, saved) => s.(orgs := s.orgs[org := saved])
    case OrgDropped(org) => DropOrg(s, org)
    case RoleSaved(member, org, membership) => s.(members := s.members[member := Scoped(org, membership)])
    case MemberRemoved(member) => s.(members := s.members - {member})
    case Invited(pk, org, invitation) => s.(invites := s.invites[pk := Scoped(org, invitation)])
    case MarkedExpired(key, org, spent) => s.(invites := s.invites[key := Scoped(org, spent)])
    case Joined(key, org, spent, pk, membership) =>
      s.(invites := s.invites[key := Scoped(org, spent)], members := s.members[pk := Scoped(org, membership)])
    case Rejoined(key, org, spent) => s.(invites := s.invites[key := Scoped(org, spent)])
    case ProjectInserted(pk, org, project) => s.(projects := s.projects[pk := Scoped(org, project)])
    case ProjectSaved(pk, org, project) => s.(projects := s.projects[pk := Scoped(org, project)])
    case ProjectRemoved(pk) => s.(projects := s.projects - {pk})
    case Recorded(e) => s.(ledger := s.ledger + {e.id}, subs := HandleEvent(s.plans, s.subs, e))
  }

  /* ----- organizations ----- */

  function DoCreateOrg(s: State, actor: nat, name: string, base: string, pk: nat): Decision {
    if name == "" then
      Refuse(BadRequest(InvalidPayload))
    else
      var slug := Slugs.FreeSlug(base, TakenSlugs(s.orgs));
      Decision(OrgInserted(pk, actor, name, slug), OrgBody(pk, Organization(name, slug, actor)))
  }

  function DoUpdateOrg(s: State, actor: nat, org: nat, name: string): Decision {
    match CallerRole(s.members, actor, org)
    case None => Refuse(NotFound)
    case Some(role) =>
      if org !in s.orgs then Refuse(NotFound)
      else if !IsManager(role) then Refuse(Forbidden)
      else if name == "" then Refuse(BadRequest(InvalidPayload))
      else
        var renamed := s.orgs[org].(name := name);
        Decision(OrgSaved(org, renamed), OrgBody(org, renamed))
  }

  function DoDestroyOrg(s: State, actor: nat, org: nat): Decision {
    match CallerRole(s.members, actor, org)
    case None => Refuse(NotFound)
    case Some(role) =>
      if role != Owner then Refuse(Forbidden) else Decision(OrgDropped(org), NoContent)
  }

  /* ----- members ----- */

  function DoListMembers(s: State, actor: nat, org: nat): Decision {
    if CallerRole(s.members, actor, org).None? then Refuse(NotFound)
    else Refuse(Members(Of(s.members, org)))
  }

  /** The answer the shared checks of the member endpoint give, None when they pass. */
  function MemberRefusal(s: State, actor: nat, org: nat, member: nat): (refusal: Option<Answer>)
    ensures refusal.None? ==> member in s.members && s.members[member].org == org
    ensures refusal.None? ==> CallerRole(s.members, actor, org).Some?
  {
    match CallerRole(s.members, actor, org)
    case None => Some(NotFound)
    case Some(role) =>
      if member !in s.members || s.members[member].org != org then Some(NotFound)
      else if !CanManageMember(role, s.members[member].row.role) then Some(Forbidden)
      else None
  }

  function DoChangeRole(s: State, actor: nat, org: nat, member: nat, role: Option<Role>): Decision {
    var refusal := MemberRefusal(s, actor, org, member);
    if refusal.Some? then Refuse(refusal.value)
    else if role.None? then Refuse(BadRequest(InvalidPayload))
    else if !CanAssignRole(CallerRole(s.members, actor, org).value, role.value) then Refuse(Forbidden)
    else
      var target := s.members[member].row;
      if target.role == Owner && role.value != Owner && IsLastOwner(s.members, member) then
        Refuse(BadRequest(LastOwnerDemoted))
      else
        var changed := target.(role := role.value);
        Decision(RoleSaved(member, org, changed), MemberBody(member, changed))
  }

  function DoRemoveMember(s: State, actor: nat, org: nat, member: nat): Decision {
    var refusal := MemberRefusal(s, actor, org, member);
    if refusal.Some? then Refuse(refusal.value)
    else if IsLastOwner(s.members, member) then Refuse(BadRequest(LastOwnerRemoved))
    else Decision(MemberRemoved(member), NoContent)
  }

  /* ----- invitations ----- */

  function DoListInvitations(s: State, actor: nat, org: nat): Decision {
    match CallerRole(s.members, actor, org)
    case None => Refuse(NotFound)
    case Some(role) =>
      if !IsManager(role) then Refuse(Forbidden) else Refuse(Invitations(Of(s.invites, org)))
  }

  /** The memberships of an organization whose user's email equals `email` but for case. */
  function MembersByEmail(users: map<nat, string>, members: Table<Membership>, org: nat, email: string): set<nat> {
    set pk | pk in members && members[pk].org == org && members[pk].row.user in users
             && Fold(users[members[pk].row.user]) == Fold(email)
  }

  function PendingKeys(invites: Table<Invitation>, org: nat): set<nat> {
    set pk | pk in invites && invites[pk].org == org && invites[pk].row.status == Pending
  }

  function PendingByEmail(invites: Table<Invitation>, org: nat, email: string): set<nat> {
    set pk | pk in PendingKeys(invites, org) && Fold(invites[pk].row.email) == Fold(email)
  }

  function MemberKeys(members: Table<Membership>, org: nat): set<nat> {
    set pk | pk in members && members[pk].org == org
  }

  /** Seats in use: members plus invitations still pending. */
  function Seats(s: State, org: nat): int {
    |MemberKeys(s.members, org)| + |PendingKeys(s.invites, org)|
  }

  function DoInvite(s: State, actor: nat, org: nat, email: string, role: Option<Role>, now: int,
                    pk: nat, token: nat): Decision {
    var caller := CallerRole(s.members, actor, org);
    if caller.None? then Refuse(NotFound)
    else if !IsManager(caller.value) then Refuse(Forbidden)
    else if role.None? then Refuse(BadRequest(InvalidPayload))
    else if !CanAssignRole(caller.value, role.value) then Refuse(Forbidden)
    else if MembersByEmail(s.users, s.members, org, email) != {} then Refuse(BadRequest(AlreadyMember))
    else if PendingByEmail(s.invites, org, email) != {} then Refuse(BadRequest(AlreadyPending))
    else if Full(Seats(s, org), MemberCap(s.plans, s.subs, org)) then Refuse(PaymentRequired)
    else
      var invitation := Invitation(Fold(email), role.value, token, Pending, actor, now + s.lifetime);
      Decision(Invited(pk, org, invitation), InvitationBody(pk, invitation))
  }

  function TokenKeys(invites: Table<Invitation>, token: nat): set<nat> {
    set pk | pk in invites && invites[pk].row.token == token
  }

  predicate IsExpired(invitation: Invitation, now: int) {
    now >= invitation.expiresAt
  }

  function DoAccept(s: State, actor: nat, token: nat, now: int, pk: nat): Decision
    requires actor in s.users
  {
    match First(TokenKeys(s.invites, token))
    case None => Refuse(BadRequest(InvalidInvitation))
    case Some(key) =>
      var invitation, org := s.invites[key].row, s.invites[key].org;
      if invitation.status != Pending then
        Refuse(BadRequest(InvalidInvitation))
      else if IsExpired(invitation, now) then
        Decision(MarkedExpired(key, org, invitation.(status := Expired)), BadRequest(ExpiredInvitation))
      else if Fold(s.users[actor]) != Fold(invitation.email) then
        Refuse(BadRequest(InvalidInvitation))
      else
        var spent := invitation.(status := Accepted);
        match First(UserKeys(s.members, actor, org))
        case Some(existing) =>
          Decision(Rejoined(key, org, spent), MemberBody(existing, s.members[existing].row))
        case None =>
          var member := Membership(actor, invitation.role);
          Decision(Joined(key, org, spent, pk, member), MemberBody(pk, member))
  }

  /* ----- projects ----- */

  /** The active organization of a request: the header's, if the actor is a member of it. */
  function ActiveOrg(s: State, actor: nat, header: Option<nat>): Option<nat> {
    if header.Some? && CallerRole(s.members, actor, header.value).Some? then header else None
  }

  predicate Visible(s: State, org: nat, project: nat) {
    project in Of(s.projects, org)
  }

  predicate CanWriteProject(s: State, actor: nat, org: nat, project: nat)
    requires project in s.projects
  {
    var role := CallerRole(s.members, actor, org);
    (role.Some? && IsManager(role.value)) || s.projects[project].row.createdBy == actor
  }

  function DoListProjects(s: State, actor: nat, header: Option<nat>): Decision {
    match ActiveOrg(s, actor, header)
    case None => Refuse(Forbidden)
    case Some(org) => Refuse(Projects(Of(s.projects, org)))
  }

  function DoGetProject(s: State, actor: nat, header: Option<nat>, project: nat): Decision {
    match ActiveOrg(s, actor, header)
    case None => Refuse(Forbidden)
    case Some(org) =>
      if !Visible(s, org, project) then Refuse(NotFound)
      else Refuse(ProjectBody(project, s.projects[project].row))
  }

  function ProjectKeys(projects: Table<Project>, org: nat): set<nat> {
    set pk | pk in projects && projects[pk].org == org
  }

  function DoCreateProject(s: State, actor: nat, header: Option<nat>, name: string, pk: nat): Decision {
    match ActiveOrg(s, actor, header)
    case None => Refuse(Forbidden)
    case Some(org) =>
      if name == "" then Refuse(BadRequest(InvalidPayload))
      else if Full(|ProjectKeys(s.projects, org)|, ProjectCap(s.plans, s.subs, org)) then Refuse(PaymentRequired)
      else
        var project := Project(name, actor);
        Decision(ProjectInserted(pk, org, project), ProjectBody(pk, project))
  }

  /** The answer the shared checks of a project write give, None when they pass. */
  function ProjectRefusal(s: State, actor: nat, header: Option<nat>, project: nat): (refusal: Option<Answer>)
    ensures refusal.None? ==> header.Some? && Visible(s, header.value, project)
  {
    match ActiveOrg(s, actor, header)
    case None => Some(Forbidden)
    case Some(org) =>
      if !Visible(s, org, project) then Some(NotFound)
      else if !CanWriteProject(s, actor, org, project) then Some(Forbidden)
      else None
  }

  function DoUpdateProject(s: State, actor: nat, header: Option<nat>, project: nat, name: string): Decision {
    var refusal := ProjectRefusal(s, actor, header, project);
    if refusal.Some? then Refuse(refusal.value)
    else if name == "" then Refuse(BadRequest(InvalidPayload))
    else
      var renamed := s.projects[project].row.(name := name);
      Decision(ProjectSaved(project, header.value, renamed), ProjectBody(project, renamed))
  }

  function DoDestroyProject(s: State, actor: nat, header: Option<nat>, project: nat): Decision {
    var refusal := ProjectRefusal(s, actor, header, project);
    if refusal.Some? then Refuse(refusal.value)
    else Decision(ProjectRemoved(project), NoContent)
  }

  /* ----- webhook deliveries ----- */

  /** Record the event id and handle the event in one transaction: a duplicate does nothing,
      and a failure leaves nothing behind. */
  function DoDeliver(s: State, e: Event, crash: bool): Decision {
    if e.id in s.ledger then Refuse(AlreadyProcessed)
    else if crash || Raises(e) then Refuse(ServerError)
    else Decision(Recorded(e), Processed)
  }

  /* ----- requests and runs ----- */

  function Decide(s: State, r: Request): Decision {
    if r.Deliver? then DoDeliver(s, r.event, r.crash)
    else if r.actor !in s.users then Refuse(Unauthorized)
    else
      match r
      case CreateOrg(actor, name, base, pk) => DoCreateOrg(s, actor, name, base, pk)
      case UpdateOrg(actor, org, name) => DoUpdateOrg(s, actor, org, name)
      case DestroyOrg(actor, org) => DoDestroyOrg(s, actor, org)
      case ListMembers(actor, org) => DoListMembers(s, actor, org)
      case ChangeRole(actor, org, member, role) => DoChangeRole(s, actor, org, member, role)
      case RemoveMember(actor, org, member) => DoRemoveMember(s, actor, org, member)
      case ListInvitations(actor, org) => DoListInvitations(s, actor, org)
      case Invite(actor, org, email, role, now, pk, token) =>
        DoInvite(s, actor, org, email, role, now, pk, token)
      case Accept(actor, token, now, pk) => DoAccept(s, actor, token, now, pk)
      case ListProjects(actor, header) => DoListProjects(s, actor, header)
      case GetProject(actor, header, project) => DoGetProject(s, actor, header, project)
      case CreateProject(actor, header, name, pk) => DoCreateProject(s, actor, header, name, pk)
      case UpdateProject(actor, header, project, name) => DoUpdateProject(s, actor, header, project, name)
      case DestroyProject(actor, header, project) => DoDestroyProject(s, actor, header, project)
  }

  function Commit(s: State, d: Decision): Outcome {
    Outcome(Apply(s, d.change), d.answer)
  }

  function Next(s: State, r: Request): State {
    Apply(s, Decide(s, r).change)
  }

  function Run(s: State, rs: seq<Request>): State
    decreases |rs|
  {
    if rs == [] then s else Run(Next(s, rs[0]), rs[1..])
  }

  /* ----- fresh numbers ----- */

  /** Every row number and token in the database lies below `bound`. */
  predicate Below(s: State, bound: nat) {
    && (forall pk :: pk in s.orgs ==> pk < bound)
    && (forall pk :: pk in s.members ==> pk < bound)
    && (forall pk :: pk in s.invites ==> pk < bound && s.invites[pk].row.token < bound)
    && (forall pk :: pk in s.projects ==> pk < bound)
    && (forall pk :: pk in s.subs ==> pk < bound)
  }

  /** The numbers a request brings are fresh: none lies below `bound`. */
  predicate Fresh(bound: nat, r: Request) {
    match r
    case CreateOrg(_, _, _, pk) => bound <= pk
    case Invite(_, _, _, _, _, pk, token) => bound <= pk && bound <= token
    case Accept(_, _, _, pk) => bound <= pk
    case CreateProject(_, _, _, pk) => bound <= pk
    case _ => true
  }

  /** The bound once a request has used its numbers. */
  function Bump(bound: nat, r: Request): (next: nat)
    requires Fresh(bound, r)
    ensures bound <= next
  {
    match r
    case CreateOrg(_, _, _, pk) => pk + 1
    case Invite(_, _, _, _, _, pk, token) => if pk < token then token + 1 else pk + 1
    case Accept(_, _, _, pk) => pk + 1
    case CreateProject(_, _, _, pk) => pk + 1
    case _ => bound
  }

  /** Numbers are handed out in increasing order and never twice, as database sequences do. */
  predicate Paced(bound: nat, rs: seq<Request>)
    decreases |rs|
  {
    rs == [] || (Fresh(bound, rs[0]) && Paced(Bump(bound, rs[0]), rs[1..]))
  }

  /* ----- what stands behind a write ----- */

  predicate FreshIn(bound: nat, c: Change) {
    match c
    case OrgInserted(pk, _, _, _) => bound <= pk
    case Invited(pk, _, invitation) => bound <= pk && bound <= invitation.token
    case Joined(_, _, _, pk, _) => bound <= pk
    case ProjectInserted(pk, _, _) => bound <= pk
    case _ => true
  }

  predicate PendingAt(s: State, key: nat, org: nat) {
    key in s.invites && s.invites[key].org == org && s.invites[key].row.status == Pending
  }

  /** The invitation at `key` is pending, and `spent` is the same but for its status. */
  predicate Spends(s: State, key: nat, org: nat, spent: Invitation, status: Status) {
    PendingAt(s, key, org) && spent == s.invites[key].row.(status := status)
  }

  predicate ActsAs(s: State, actor: nat, org: nat, role: Role) {
    CallerRole(s.members, actor, org) == Some(role)
  }

  /** What the checks of a request by `actor` have established when it writes `c`. */
  ghost predicate Justified(s: State, actor: nat, c: Change) {
    match c
    case Nothing => true
    case OrgInserted(_, user, _, slug) => user == actor && actor in s.users && slug !in TakenSlugs(s.orgs)
    case OrgSaved(org, saved) =>
      && org in s.orgs && saved == s.orgs[org].(name := saved.name)
      && exists role :: ActsAs(s, actor, org, role) && IsManager(role)
    case OrgDropped(org) => ActsAs(s, actor, org, Owner)
    case RoleSaved(member, org, membership) =>
      && member in s.members && s.members[member].org == org
      && membership.user == s.members[member].row.user
      && !CleanRaises(s.members, member, membership.role)
      && exists role :: && ActsAs(s, actor, org, role)
                        && CanManageMember(role, s.members[member].row.role)
                        && CanAssignRole(role, membership.role)
    case MemberRemoved(member) =>
      && member in s.members
      && !DeleteRaises(s.members, member)
      && exists role :: ActsAs(s, actor, s.members[member].org, role)
                        && CanManageMember(role, s.members[member].row.role)
    case Invited(_, org, invitation) =>
      && invitation.status == Pending && invitation.email == Fold(invitation.email)
      && MembersByEmail(s.users, s.members, org, invitation.email) == {}
      && PendingByEmail(s.invites, org, invitation.email) == {}
      && !Full(Seats(s, org), MemberCap(s.plans, s.subs, org))
      && exists role :: ActsAs(s, actor, org, role) && CanAssignRole(role, invitation.role)
    case MarkedExpired(key, org, spent) => Spends(s, key, org, spent, Expired)
    case Joined(key, org, spent, _, membership) =>
      && Spends(s, key, org, spent, Accepted)
      && actor in s.users && Fold(s.users[actor]) == Fold(spent.email)
      && UserKeys(s.members, actor, org) == {}
      && membership == Membership(actor, spent.role)
    case Rejoined(key, org, spent) =>
      && Spends(s, key, org, spent, Accepted)
      && actor in s.users && Fold(s.users[actor]) == Fold(spent.email)
      && UserKeys(s.members, actor, org) != {}
    case ProjectInserted(_, org, project) =>
      && project.createdBy == actor && CallerRole(s.members, actor, org).Some?
      && !Full(|ProjectKeys(s.projects, org)|, ProjectCap(s.plans, s.subs, org))
    case ProjectSaved(pk, org, project) =>
      && pk in s.projects && s.projects[pk].org == org
      && project == s.projects[pk].row.(name := project.name)
      && CanWriteProject(s, actor, org, pk) && CallerRole(s.members, actor, org).Some?
    case ProjectRemoved(pk) =>
      && pk in s.projects && CanWriteProject(s, actor, s.projects[pk].org, pk)
      && CallerRole(s.members, actor, s.projects[pk].org).Some?
    case Recorded(e) => e.id !in s.ledger && !Raises(e)
  }

  /** An invitation is marked expired only once it has expired, and spent only before. */
  predicate Timely(r: Request, c: Change) {
    match c
    case MarkedExpired(_, _, spent) => r.Accept? && IsExpired(spent, r.now)
    case Joined(_, _, spent, _, _) => r.Accept? && !IsExpired(spent, r.now)
    case Rejoined(_, _, spent) => r.Accept? && !IsExpired(spent, r.now)
    case _ => true
  }

  /** The user a request acts for; a webhook delivery acts for none, and writes only events. */
  function ActorOf(r: Request): nat {
    if r.Deliver? then 0 else r.actor
  }

  lemma InviteJustified(s: State, actor: nat, org: nat, email: string, role: Option<Role>, now: int,
                        pk: nat, token: nat)
    ensures var c := DoInvite(s, actor, org, email, role, now, pk, token).change;
            && Justified(s, actor, c)
            && (c.Invited? ==> c.invitation.email == Fold(email) && c.invitation.expiresAt == now + s.lifetime)
  {
    var d := DoInvite(s, actor, org, email, role, now, pk, token);
    if d.change.Invited? {
      FoldIdempotent(email);
      assert MembersByEmail(s.users, s.members, org, d.change.invitation.email) ==
             MembersByEmail(s.users, s.members, org, email);
      assert PendingByEmail(s.invites, org, d.change.invitation.email) == PendingByEmail(s.invites, org, email);
      assert ActsAs(s, actor, org, CallerRole(s.members, actor, org).value);
    }
  }

  lemma MemberEndpointJustified(s: State, actor: nat, org: nat, member: nat, role: Option<Role>)
    ensures Justified(s, actor, DoChangeRole(s, actor, org, member, role).change)
    ensures Justified(s, actor, DoRemoveMember(s, actor, org, member).change)
  {
    var caller := CallerRole(s.members, actor, org);
    assert caller.Some? ==> ActsAs(s, actor, org, caller.value);
  }

  /** The guards of the model layer refuse exactly what the member endpoint refuses for the sake of
      the last Owner, so they never raise behind it. */
  lemma GuardsAgree(s: State, actor: nat, org: nat, member: nat, role: Role)
    requires MemberRefusal(s, actor, org, member).None?
    ensures DeleteRaises(s.members, member) <==>
            DoRemoveMember(s, actor, org, member).answer == BadRequest(LastOwnerRemoved)
    ensures CanAssignRole(CallerRole(s.members, actor, org).value, role) ==>
            (CleanRaises(s.members, member, role) <==>
             DoChangeRole(s, actor, org, member, Some(role)).answer == BadRequest(LastOwnerDemoted))
  {
  }

  lemma UpdateOrgJustified(s: State, actor: nat, org: nat, name: string)
    ensures Justified(s, actor, DoUpdateOrg(s, actor, org, name).change)
  {
    var caller := CallerRole(s.members, actor, org);
    assert caller.Some? ==> ActsAs(s, actor, org, caller.value);
  }

  lemma AcceptJustified(s: State, actor: nat, token: nat, now: int, pk: nat)
    requires actor in s.users
    ensures Justified(s, actor, DoAccept(s, actor, token, now, pk).change)
  {
  }

  lemma ProjectWritesJustified(s: State, actor: nat, header: Option<nat>, project: nat, name: string, pk: nat)
    ensures Justified(s, actor, DoCreateProject(s, actor, header, name, pk).change)
    ensures Justified(s, actor, DoUpdateProject(s, actor, header, project, name).change)
    ensures Justified(s, actor, DoDestroyProject(s, actor, header, project).change)
  {
  }

  lemma DecideTimely(s: State, r: Request)
    ensures Timely(r, Decide(s, r).change)
  {
  }

  /** Nothing is written that the checks did not allow. */
  lemma DecideJustified(s: State, r: Request)
    ensures Justified(s, ActorOf(r), Decide(s, r).change)
    ensures Timely(r, Decide(s, r).change)
  {
    DecideTimely(s, r);
    if !r.Deliver? && r.actor in s.users {
      match r
      case UpdateOrg(actor, org, name) => UpdateOrgJustified(s, actor, org, name);
      case ChangeRole(actor, org, member, role) => MemberEndpointJustified(s, actor, org, member, role);
      case RemoveMember(actor, org, member) => MemberEndpointJustified(s, actor, org, member, None);
      case Invite(actor, org, email, role, now, pk, token) =>
        InviteJustified(s, actor, org, email, role, now, pk, token);
      case Accept(actor, token, now, pk) => AcceptJustified(s, actor, token, now, pk);
      case CreateProject(actor, header, name, pk) => ProjectWritesJustified(s, actor, header, 0, name, pk);
      case UpdateProject(actor, header, project, name) => ProjectWritesJustified(s, actor, header, project, name, 0);
      case DestroyProject(actor, header, project) => ProjectWritesJustified(s, actor, header, project, "", 0);
      case _ =>
    }
  }

  lemma OnlyDeliveriesRecord(s: State, r: Request)
    requires !r.Deliver?
    ensures !Decide(s, r).change.Recorded?
  {
  }

  lemma DecideFresh(s: State, bound: nat, r: Request)
    requires Fresh(bound, r)
    ensures FreshIn(bound, Decide(s, r).change)
  {
  }
}
