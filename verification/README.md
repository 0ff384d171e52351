# The tenant core, verified

A Dafny model of the multi-tenant core of a Django SaaS backend: organizations and their members,
invitations, projects, plan caps, Stripe webhooks and password-reset tokens. The model states what
every run of requests keeps, what every interleaving of the lock-guarded transactions keeps, and
what one tenant can notice of the others.

Run `dafny verify dfyconfig.toml` in this directory.

## Layers

1. **One request at a time** (`Models`, `Rbac`, `Billing`, `Slugs`, `Requests`, `Store`,
   `Policy`, `Places`). `Requests`
   says what each API request and webhook delivery writes and answers; the clock, the numbers of
   new rows and the tokens of new invitations are inputs, so a run is a function of its list of
   requests. `Policy` and `Places` say the same from outside: for every endpoint the answer and the
   whole write, on the rows, with roles, limits and addresses written out. `Store` runs the writing endpoints as the views do - fetch, check, assign, save - on a
   class with the tables as fields, and ties each to its specification.
2. **Whole runs** (`Invariants`, `Seats`, `RankFlow`, `WebhookScope`, `Isolation`, `TenantEvents`,
   `Deliveries`): the reachable-state invariant, seat and project high-water marks, privilege flow, tenant isolation,
   and the webhook fold.
3. **Interleaved transactions** (`ProjectLock`, `InviteLock`, `AcceptLock`, `LedgerLock`): the same
   operations cut into statements under READ COMMITTED, with any number of requests in flight. Each
   is tied back to layer 1: `ProjectRuns` carries a whole interleaved run out as requests one at a
   time, `LedgerLock` comes to the fold of layer 2, and the other two share their checks and
   decisions with the requests.
4. **Two protocols of their own** (`OrgCreation`, `ResetTokens`): creating an organization against
   rivals that commit between its statements, and the password-reset fingerprint.

## What the proofs found

- **Webhooks can cross tenants.** An event is looked up by the organization its metadata names, then
  by subscription id, then by customer id, in the rows of all organizations. When two organizations
  share a Stripe customer, what another tenant did decides which subscription is changed
  (`Isolation.SharedCustomerInterferes`, from a database that requests reach,
  `Isolation.SharedCustomerReached`). The application itself gives each organization its own customer
  (billing/stripe_client.py:26-37), so this takes a checkout session created outside it. The exact
  condition is on the rows at hand: no other organization's row is looked up ahead of the
  organization's own (`WebhookScope.FoundAlike`), or the event would leave its own row as it is. An
  organization is throughout a run as if alone if and only if the deliveries of the run are so clear
  for it (`Isolation.AloneExactly`). They all are when no event carries Stripe ids of two
  organizations (`Isolation.OwnIdsIsolate`), with or without metadata, and then other tenants'
  deliveries leave nothing but their event ids (`TenantEvents.AloneWithOwnEvents`). API requests need
  no condition.
- **The seat cap can be overshot by concurrent acceptances.** Acceptances lock the invitation, not the
  subscription, and the invite check counts members and pending invitations in two queries. The
  excess is at most the number of acceptances that commit between the two
  (`InviteLock.SeatBound`), and every such excess can be reached (`InviteLock.BoundReached`). Likewise
  an acceptance between the two existence checks lets its own email be invited again
  (`InviteLock.InvitedAgain`), and nothing else does (`InviteLock.EmailBound`). The comment at
  organizations/views.py:201-202 says that concurrent invites cannot double-create or exceed the
  cap. Among invites alone that is so; it does not speak of acceptances.
- **Overlapping handlers lose updates.** Deliveries are handled at most once per event id under every
  interleaving (`LedgerLock.ExactlyOnce`). But handlers read a subscription and later save all of
  its fields, so of two events on one subscription that overlap the second undoes the first
  (`LedgerLock.LostUpdate`). The subscriptions are throughout those of handling the committed events
  one after another if and only if each commit is harmless (`LedgerLock.FoldExactly`): it would
  find the same row now, and the fields its event carries over are as it read them; or it would
  find another, and changes neither. That is so as long as no two deliveries about one organization
  overlap between read and commit (`LedgerLock.FoldOneAtATime`).
- **Two deletes of one project can both answer 204.** The delete finds the row and then removes it,
  with no lock (`ProjectLock.DeletedTwice`). It answers so, where a serial order has 404, exactly when
  the project is gone since it found it (`ProjectLock.Linearizable`).
- **An edit can bring a deleted project back, over the cap.** The edit finds the row and later saves it,
  and saving inserts when the row is gone, without a count: `ProjectLock.Revived` ends with four
  projects where three are allowed, one of them back after its delete answered 204. It happens
  exactly when a delete of the project was answered since the edit found it
  (`ProjectLock.RevivedExactly`). The order in which requests take effect explains the rows if and
  only if it never happens (`ProjectLock.SerialExactly`), and the projects exceed the cap by at most
  the rows brought back (`ProjectLock.CapHolds`).
- **A reset token can be redeemed twice.** Validating the token and storing the password are two
  statements with nothing locked, so two confirmations that both validate before either stores both
  succeed (`ResetTokens.RedeemedTwice`). Only such a one can be the second
  (`ResetTokens.RedeemedOnce`).
- **The billing lock depends on the subscription row.** Without one, two creates can both pass the
  count (`ProjectLock.NoRowNoLock`); with the Free plan seeded the row always exists
  (`Seats.LockRowExists`).
- **Where a create stands in the serial order.** A create that succeeds is placed at its commit, one
  that is refused at its count. The count would be too early for a successful create: a delete
  between the two does not find the row yet and answers 404. Deletes only make room, so the count is
  still right at the commit.

## Assumptions

- Numbers of new rows and tokens of new invitations are fresh and increase along a run
  (`Requests.Paced`), as database sequences do and unguessable tokens may be numbered. One number
  per request serves every row the request inserts, each in its own table.
- Users and their emails, the plan catalogue and the invitation lifetime do not change. Case folding
  is that of ASCII letters. No two users' emails are alike but for case where `InviteLock` compares
  the counts with those of layer 1.
- The password-reset fingerprint is injective, a new password hash was never stored before, and login
  times strictly increase (`ResetTokens.Injective`, `ResetTokens.Fair`).
- A `crash` flag stands for any failure of a webhook handler that does not show in the fields of the
  modelled event, such as a period end that is no number.

## Model

| member | source | states |
|---|---|---|
| `Isolation.TenantAlone` | core/viewsets.py:29-38 | After any run whose deliveries are clear for an organization - none is led past its own row by another organization's - its memberships, invitations, projects and subscription, and every answer to its own requests, are those of running only its own requests in a database that holds nothing else. |
| `Isolation.AloneExactly` | billing/webhooks.py:41-53 | That condition is exact: the organization's rows are throughout the run, after every request, what its own requests alone make them if and only if the deliveries are clear for it. |
| `Isolation.OwnIdsIsolate` | billing/webhooks.py:41-53 | When no event carries Stripe ids of two organizations, with or without metadata, every delivery of every run is clear for every organization, so all other tenants' API requests can be dropped from any run. |
| `TenantEvents.AloneWithOwnEvents` | billing/webhooks.py:41-59 | When moreover no event id is shared between organizations, the deliveries about others can be dropped too: alone with its own requests and its own events the organization has the same rows and answers, and only the ledger differs. |
| `Isolation.NonInterference` | core/permissions.py:29-61 | Two runs that contain the same requests of an organization in the same order, from databases that agree on its rows, and whose deliveries are clear for it, leave it the same rows and give it the same answers, whatever other tenants do in either. |
| `Isolation.OthersDoNotMatter` | organizations/views.py:80-91 | Deleting every request that targets another organization from a run changes neither the rows the organization ends with nor any answer it gets, if the deliveries are clear for it with and without them. |
| `Isolation.DecideConfined` | core/viewsets.py:29-35 | Each of an organization's own requests is decided - answer and write - the same whether or not other organizations exist. |
| `Isolation.WriteConfined` | core/viewsets.py:37-38 | A request's write is seen in the one organization it belongs to exactly as if that were alone, and changes no row of any other. |
| `Isolation.ForeignTarget` | organizations/views.py:143-148 | A request that is not the organization's own never writes to it. |
| `Isolation.ForeignIdIsMissing` | projects/permissions.py:18-24 | A membership or project id of another organization gets the same answer and write as an id that does not exist. |
| `Isolation.EventConfined` | billing/webhooks.py:41-53 | A clear event does to an organization's subscription what it would do if the organization were alone. |
| `Isolation.StepConfined` | billing/webhooks.py:41-53 | Any request changes an organization's rows as it would were it alone, and another's request does not change them - a delivery if and only if it is clear. |
| `WebhookScope.FoundAlike` | billing/webhooks.py:41-53 | An event finds the same one of an organization's rows in the whole table as among its own rows alone, if any, exactly when no other organization's row is looked up ahead of it. |
| `WebhookScope.FindFirst` | billing/webhooks.py:41-53 | The row found is the one that no other is ahead of, by ground of the lookup and then by age; none is found exactly when no row matches on any ground. |
| `WebhookScope.OwnIdsKept` | billing/webhooks.py:62-109 | Handling events that carry one organization's ids each, rows keep carrying ids of their own organization only. |
| `WebhookScope.SettledExactly` | billing/webhooks.py:41-53 | Whether an event concerns a subscription can be told from that subscription alone, for every database it may be in, exactly when the event names its organization, leads to it in no way, or is not handled. |
| `Isolation.SharedCustomerInterferes` | billing/webhooks.py:51-53 | Two organizations with one Stripe customer: deleting the first turns a payment failure of its own into one of the second. |
| `Isolation.SharedCustomerReached` | billing/webhooks.py:62-74 | That database is reached from an empty one by two creations and two checkouts. |
| `Invariants.ReachableInv` | organizations/models.py:49-67 | Every database that requests reach from an empty one, with the Free plan seeded, has no dangling row, one subscription per organization, unique slugs, one membership per user and organization, unique tokens, at most one pending invitation per organization and folded email, no pending invitation for a member, and an Owner in every organization. |
| `Invariants.StepKeeps` | organizations/views.py:143-169 | Every single request, refused or not, keeps that whole invariant. |
| `Invariants.InsertOrgKeepsTenancy` | billing/signals.py:20-30 | A new organization gets its one subscription, and slugs stay unique. |
| `Invariants.DropOrgKeepsTenancy` | organizations/views.py:115-120 | Deleting an organization leaves no membership, invitation, project or subscription that refers to it, and every other organization its one subscription. |
| `Invariants.OwnedAfterRemove` | core/rbac.py:46-55 | Removing a membership that is not the last Owner's leaves every organization an Owner. |
| `Invariants.OwnedAfterPut` | organizations/models.py:85-96 | Changing a role leaves every organization an Owner, provided the last Owner is not demoted. |
| `Invariants.PendingAfterInvite` | organizations/views.py:203-218 | After an invite there is still one pending invitation per email, and none for a member. |
| `Invariants.AcceptFindsNoMembership` | organizations/views.py:269-273 | A matching pending invitation implies that the accepting user has no membership yet, so the existing-membership case of an accept never happens. |
| `Invariants.EventKeepsTenancy` | billing/webhooks.py:130-136 | Handling an event keeps one subscription per organization, at home and on a catalogue plan. |
| `Requests.DecideJustified` | core/rbac.py:32-43 | No request writes anything its checks did not establish: role and rank of the actor, last-owner guards of API and model layer, caps, pending status, expiry, matching email, free slug. |
| `Policy.OutsidersGetNothing` | core/permissions.py:49-57 | A user without a membership of the organization gets 404 on every request that names it by path and 403 on every one that names it by header, reads included, and writes nothing. |
| `Policy.NamelessGetNothing` | core/permissions.py:30-45 | Without a usable header there is no access to projects, and without a known user none to anything. |
| `Policy.MembersRead` | core/viewsets.py:29-35 | A member reads exactly the organization's projects and memberships, all of them and no other's, and Owners and Admins, but no plain Members, its invitations. |
| `Policy.HandledExactly` | core/rbac.py:3-43 | The rank comparisons come to: an Owner handles every role, an Admin every role but Owner, a Member none. |
| `Policy.LastExactly` | core/rbac.py:46-55 | A membership is the last Owner's exactly when it is an Owner's and no other of the organization is. |
| `Policy.Renaming` | organizations/views.py:103-113 | Owners and Admins, and no plain Members, rename an organization; slug, creator and everything else stay. |
| `Policy.Deleting` | organizations/views.py:115-120 | Only Owners delete an organization; exactly its own rows go, and every other row stays. |
| `Policy.Creating` | organizations/views.py:94-101 | With a name given, an organization is created under a slug that no other has, and its creator becomes its Owner. |
| `Policy.ChangingRoles` | organizations/views.py:143-169 | A role changes, to the one asked for and nothing else with it, exactly when the target is a member here, the caller may handle both the old and the new role, and the last Owner is not demoted; every refusal has its answer. |
| `Policy.RemovingMembers` | organizations/views.py:143-157 | A membership is removed, alone, exactly when it is one of the organization's, the caller may handle its role, and it is not the last Owner's. |
| `Policy.EditingProjects` | projects/permissions.py:18-24 | Exactly Owners, Admins and its creator rename a project; its creator and everything else stay. |
| `Policy.DeletingProjects` | projects/permissions.py:18-24 | Exactly Owners, Admins and its creator delete a project, and only it goes. |
| `Places.Inviting` | organizations/views.py:177-220 | An Owner or Admin invites at a role they may handle, exactly when no member and no pending invitation has the address but for case and members plus pending are below maxMembers of the plan the subscription names; then the one invitation is added, as given, and every refusal has its answer. |
| `Places.Accepting` | organizations/views.py:251-279 | A pending invitation is accepted exactly by a user with its address but for case, before it expires; it is spent and adds one membership at its role. A late one is marked expired; nothing else is written. |
| `Places.CreatingProjects` | projects/views.py:37-50 | Any member creates a project exactly while the organization has fewer than maxProjects of the plan the subscription names; it is stamped with organization and creator. |
| `Places.LimitsStep` | billing/limits.py:40-61 | No request adds a seat once members plus pending reach maxMembers of the catalogue plan, or a project once they reach its maxProjects. |
| `Places.LimitsHold` | billing/limits.py:31-61 | Over any run on one plan, members plus pending stay within maxMembers or do not grow, and projects within maxProjects or do not grow. |
| `Places.NoSubscription` | billing/limits.py:31-37 | Without a subscription both limits are 3. |
| `Models.FoldExactly` | organizations/views.py:205-210 | Two addresses are taken for one exactly when they differ in the case of letters at most. |
| `Requests.InviteJustified` | organizations/views.py:196-218 | An invitation is only written for an email that is neither a member's nor already invited, within the cap, at a role the actor may assign; it carries the email in lower case and expires after the lifetime. |
| `Requests.GuardsAgree` | organizations/models.py:85-103 | On a manageable target the model's delete guard - the API's test written a second time - raises exactly when the API answers that the last Owner cannot be removed, and its clean guard exactly when the API answers that the last Owner cannot be demoted. |
| `Seats.LockRowExists` | billing/limits.py:28-37 | In every reachable database an organization has exactly one subscription, with a known plan: the lock locks a row, and the built-in cap is never used. |
| `Seats.AcceptConservesSeats` | organizations/views.py:266-275 | A successful accept adds exactly one membership and takes exactly one pending invitation: members plus pending stay the same. |
| `Seats.ProjectGrowth` | billing/limits.py:40-47 | A request adds at most one project to an organization, and none while its cap is reached. |
| `Seats.SeatGrowth` | billing/limits.py:50-61 | A request adds at most one seat in use, and none while the member cap is reached. |
| `Seats.ProjectHighWater` | billing/webhooks.py:96-109 | Over any run, across upgrades and downgrades, an organization has at most the larger of the projects it started with and the largest cap the run met. |
| `Seats.SeatHighWater` | billing/limits.py:31-61 | The same for members plus pending invitations. |
| `RankFlow.RankFlowBound` | core/rbac.py:32-43 | Along any run whose actors all rank below k in an organization, memberships plus pending invitations of rank k and above never grow in number, accepts included, and no membership of that rank is removed or changed. |
| `RankFlow.OwnersKept` | core/rbac.py:32-43 | Along any run in which no Owner of the organization acts, every Owner's membership stays as it is, and Owners plus pending Owner invitations do not grow in number. |
| `RankFlow.ManagersKept` | core/rbac.py:32-43 | The same of Owners and Admins when only plain Members and outsiders act. |
| `RankFlow.LowMemberWrite` | organizations/views.py:143-169 | A request of an actor below rank k leaves every membership of rank k and above as it is, and makes none but by accepting. |
| `RankFlow.LowInviteWrite` | organizations/views.py:196-218 | A request of an actor below rank k adds no pending invitation of rank k or above. |
| `RankFlow.LowJoin` | organizations/views.py:268-275 | An accept turns a high pending invitation into a high membership, one for one. |
| `Deliveries.FindOrder` | billing/webhooks.py:41-53 | The subscription an event is about is the oldest of the organization it names, failing that of its subscription id, failing that of its customer id, and none exactly when nothing matches. |
| `Deliveries.EventFrame` | billing/webhooks.py:62-119 | An event changes at most the one subscription it is about, creates, deletes and re-homes none, and moves its plan only to an active plan or, on deletion, to Free. |
| `Deliveries.CheckoutLinks` | billing/webhooks.py:62-74 | After a completed checkout, later events without an organization find the same subscription by the subscription or customer id the checkout carried, unless another row has it too. |
| `Deliveries.DeletionUnlinks` | billing/webhooks.py:96-109 | A deleted subscription is canceled, on Free, keeps its customer, and is found by no subscription id any more. |
| `Deliveries.FoundById` | billing/webhooks.py:77-117 | Updates, deletions and failed payments lead to the one subscription whose Stripe id their payload carries; a checkout without customer and organization to none. |
| `Deliveries.CheckoutOutcome` | billing/webhooks.py:62-74 | A checkout makes the subscription active, sets the ids it carries and the active plan it names, and keeps the rest. |
| `Deliveries.UpdateOutcome` | billing/webhooks.py:77-93 | An update sets status, period end, subscription id and the active plan of its price where it carries them, with every Stripe status mapped, and keeps the rest. |
| `Deliveries.EndingOutcome` | billing/webhooks.py:96-119 | A failed payment changes the status alone; a deletion the status, the subscription id and the plan. |
| `Deliveries.AnswersExactly` | billing/views.py:142-152 | A delivery is answered 200 ok exactly when it put its id into the ledger, already processed exactly when the id was there, and 500 exactly when it is there neither before nor after, with everything as before. |
| `Deliveries.Acknowledged` | billing/views.py:142-152 | In any run of requests, every acknowledged delivery has its id in the ledger for good and its event handled; every one answered 500 left the database as it was, so a retry starts afresh. |
| `Deliveries.ProcessedOnce` | billing/models.py:72-72 | No event id is answered as processed twice. |
| `Deliveries.DeliveryFold` | billing/views.py:144-150 | After any list of deliveries, with repeats, conflicting payloads under one id and failures, the database is the fold of the handlers over the first successful delivery of each id; failures and repeats leave no trace. |
| `Deliveries.EffectiveDistinct` | billing/models.py:72-72 | The events handled have distinct ids, none recorded before, and cover every id that was ever delivered successfully. |
| `Deliveries.FoldFrame` | billing/webhooks.py:56-59 | Over any list of events no subscription is created, deleted or re-homed, and plans only move to active plans or to Free. |
| `ProjectLock.Linearizable` | projects/views.py:44-47 | After any interleaving of creates, unlocked deletes and edits and plan updates, statement by statement, every answered request stands exactly once in the order in which requests take effect. Unless an edit revives a row, the committed projects and cap are those of that serial order and every answer is the one given there, but that a delete answers 204 instead of 404 exactly when the project is gone since it found it. |
| `ProjectLock.SerialExactly` | projects/views.py:29-35 | That serial order explains the rows and answers after every statement of a run if and only if no edit revives a row. |
| `ProjectLock.RevivedExactly` | core/viewsets.py:29-35 | An edit revives a row exactly when a delete of it was answered since the edit found it, and no other edit after that. |
| `ProjectLock.Revived` | projects/views.py:29-35 | An edit, a delete and a create do interleave so that four projects exist under a cap of three, one of them deleted. |
| `ProjectLock.DeletedTwice` | core/viewsets.py:29-35 | Two deletes of one project do both answer 204 in some interleaving. |
| `ProjectRuns.RunAsRequests` | projects/views.py:37-50 | A whole interleaved run in which no edit revives a row can be carried out as API requests and webhook deliveries one at a time: the i-th is the i-th operation of the serial order, on the same project; same projects, same cap, same answers, but for deletes whose project was gone, which get 404. |
| `ProjectLock.LoggedInFlight` | projects/views.py:44-47 | A request enters that serial order only while it is in flight, and what it found counts as gone only by entries added after it found it. |
| `ProjectLock.LockKept` | billing/limits.py:21-28 | Every statement that revives no row keeps: one lock holder per organization, what the holder has read of the cap and the count still holds of the committed rows, and a row that a request has found is still there unless it is gone by the answers given since. |
| `ProjectLock.CapHolds` | billing/limits.py:40-47 | While the plan stays the same, no interleaving of creates, deletes and edits takes the projects over the cap by more than the rows that edits have revived; so not at all where none is. |
| `ProjectLock.NoRowNoLock` | billing/limits.py:28-37 | Without a subscription row the lock holds nobody back: from two projects and a cap of three, two creates reach four. |
| `ProjectLock.CreateIsRequest` | projects/views.py:37-50 | The create of the serial order answers and writes what the request-atomic create does. |
| `ProjectLock.DeleteIsRequest` | core/viewsets.py:29-35 | The delete of the serial order answers and writes what the request-atomic delete does. |
| `ProjectLock.EditIsRequest` | core/viewsets.py:29-35 | The edit of the serial order answers and writes what the request-atomic update does. |
| `InviteLock.SeatBound` | billing/limits.py:50-61 | Under any interleaving of invites, accepts, expiries and removals, members plus pending exceed the cap by at most the accepts that commit between the two counts of one invite; by none if none does. |
| `InviteLock.BoundReached` | billing/limits.py:58-60 | That bound is exact: for every k some organization with a member that starts within its cap ends k seats over it, with no more than k accepts between the two counts of any one invite. |
| `InviteLock.EmailBound` | organizations/views.py:203-218 | Under any interleaving there is one pending invitation per email, and a pending one for a member only if an accept by that email committed between the two existence checks of the very invite that made it. |
| `InviteLock.InvitedAgain` | organizations/views.py:205-210 | An accept between the two existence checks does leave a pending invitation for a member. |
| `InviteLock.ChecksAreRequest` | organizations/views.py:205-218 | In a request-atomic database the invite request makes the same four checks in the same order against the same numbers. |
| `InviteLock.CommitIsWrite` | organizations/views.py:212-218 | The commit of an interleaved invite leaves the members and pending invitations that the invite request leaves. |
| `InviteLock.AcceptIsWrite` | organizations/views.py:269-275 | So does an acceptance with the accept request. |
| `InviteLock.ExpiryIsWrite` | organizations/views.py:260-263 | So does an expiry with a late accept request. |
| `InviteLock.RemovalIsWrite` | organizations/views.py:153-157 | So does a removal with the remove request. |
| `AcceptLock.StatusMoves` | organizations/views.py:251-275 | No statement of any transaction changes an invitation but from PENDING to ACCEPTED or EXPIRED, and then only its status. |
| `AcceptLock.ConsumedOnce` | organizations/views.py:251-279 | Under any interleaving each token is consumed at most once, every ACCEPTED invitation was consumed by its addressee strictly before it expired, and exactly those who consumed one were told they joined. |
| `AcceptLock.SettledStays` | organizations/views.py:258-263 | A status other than PENDING never changes again, over any continuation of a run. |
| `AcceptLock.ExpiredMarkPersists` | organizations/views.py:260-278 | The EXPIRED mark is committed although the request answers 400, and nothing is consumed. |
| `AcceptLock.DecisionIsRequest` | organizations/views.py:251-279 | Run alone, the decision under the lock, the row it writes and the answer are those of the request-atomic accept. |
| `LedgerLock.ExactlyOnce` | billing/views.py:144-150 | Under any interleaving of any deliveries, duplicates, other events and failures included, effects commit at most once per event id, and an id is in the committed ledger exactly when its effects are. |
| `LedgerLock.FoldExactly` | billing/webhooks.py:62-119 | The subscriptions are, after every step of a run, the fold of the committed events in the order of their commits if and only if every commit is harmless: its lookup is unchanged and so are the fields its event carries over from the row it read, or it changes neither the row it read nor the one it would find. |
| `LedgerLock.HarmlessExactly` | billing/webhooks.py:62-119 | One commit of rows read earlier does what the handler does in one go if and only if it is harmless. |
| `LedgerLock.FoldHolds` | billing/webhooks.py:62-119 | In particular when every delivery commits with its lookup and the row it read unchanged. |
| `LedgerLock.FoldOneAtATime` | billing/webhooks.py:62-119 | That is so when no event carries ids of two organizations and no two deliveries about one organization overlap between read and commit, whatever else overlaps. |
| `LedgerLock.LostUpdate` | billing/webhooks.py:77-93 | Two updates of one subscription that overlap leave it active where handling one after the other leaves it past due. |
| `LedgerLock.DuplicateMeansDone` | billing/views.py:145-149 | A delivery is answered as a duplicate only once its id is in the committed ledger; a failed one leaves ledger and subscriptions as they were. |
| `LedgerLock.SavesWait` | billing/webhooks.py:74-119 | In every interleaving, no two deliveries in flight have saved the same subscription. |
| `LedgerLock.RepliesAreAnswers` | billing/views.py:144-152 | Processed, duplicate and failed are the answers the delivery request gives on the committed rows, and a harmless commit leaves the rows the request does. |
| `OrgCreation.CreateOrgWithOwner` | organizations/views.py:56-71 | With rivals committing between any two statements it tries at most six times, gives up only after six and if at least six organizations were added meanwhile, and then leaves nothing of its own; otherwise it adds exactly one organization, its creator as only member and Owner, and exactly one Free subscription if the plan is seeded, to what the rivals added. Slugs stay unique either way. |
| `OrgCreation.InsertAddsOne` | organizations/views.py:63-66 | Inserted under an unused number and a free slug, the organization count grows by one, its member is its creator as Owner, and no other row changes. |
| `OrgCreation.CandidateSlug` | organizations/views.py:46-53 | The search ends on the first free candidate within one check more than the slugs taken or brought by rivals. |
| `OrgCreation.Attempt` | organizations/views.py:62-68 | An insert fails only if a rival's organization was added since the slug was found free. |
| `Slugs.DecimalInjective` | organizations/views.py:51-51 | Two suffixes never print alike. |
| `Slugs.CandidateReads` | organizations/views.py:46-53 | Candidates are the base, and then the base, a hyphen and the digits of 2, 3 and so on. |
| `Slugs.CandidateInjective` | organizations/views.py:47-52 | The candidates base, base-2, base-3 and so on are all different. |
| `Slugs.Pigeonhole` | organizations/views.py:50-52 | The search passes n taken candidates only if at least n slugs are taken. |
| `Slugs.FirstFreeFrom` | organizations/views.py:46-53 | The index found is free, all before it are taken, and it is at most the number of taken slugs. |
| `Slugs.FreeSlugUnique` | organizations/views.py:46-53 | A free candidate whose predecessors are all taken is the slug chosen. |
| `ResetTokens.UseKillsForever` | accounts/tokens.py:60-96 | A login or reset kills every token issued to that user before, forever: no continuation of any run makes one readable again. |
| `ResetTokens.RedeemedOnce` | accounts/serializers.py:148-169 | Of all tokens that share a fingerprint at most one is redeemed, but by a confirmation that had validated its token before the first one stored its password and was still in flight. |
| `ResetTokens.RedeemedTwice` | accounts/serializers.py:148-169 | Two confirmations that both validate a token before either stores its password do both store theirs. |
| `ResetTokens.FreshTokenWorks` | accounts/tokens.py:67-96 | A token stays redeemable until it is too old, whatever other users do, as long as its own user neither logs in nor resets. |
| `ResetTokens.ValidatedInTime` | accounts/tokens.py:74-81 | Over any run, every confirmation in flight, and so every one that stores a password, was validated no later than the age limit after its token was signed. |
| `ResetTokens.ValidatedExactly` | accounts/tokens.py:74-96 | A confirmation passes exactly when its token was issued here and is not too old, its user exists with the password and last login the token was signed for, and the new password is strong. |
| `ResetTokens.IssuedExactly` | accounts/tokens.py:67-71 | Only an active user is issued a token, one, signed now with the fingerprint of now. |
| `ResetTokens.StoredExactly` | accounts/serializers.py:160-169 | A confirmation changes the password of its token's user and nothing else; a login the login time of an active user and nothing else. |
| `ResetTokens.ReachableInv` | accounts/serializers.py:148-169 | The invariant those statements rest on holds after every fair run from before the first registration. |
| `ResetTokens.Accounts.ReadToken` | accounts/tokens.py:74-96 | A token reads back as its user exactly when it was signed here, is not too old, its user exists and has that fingerprint now. |
| `ResetTokens.Accounts.ValidateReset` | accounts/serializers.py:148-158 | Passes exactly when the token reads and the password passes the validators, and changes no account. |
| `ResetTokens.Accounts.SaveReset` | accounts/serializers.py:160-169 | Stores the new hash for the user whose token was read, and nothing else. |
| `ResetTokens.Accounts.ConfirmReset` | accounts/serializers.py:148-169 | Undisturbed, the whole request stores the new hash exactly when the token reads and the password passes the validators; otherwise changes no account. |
| `ResetTokens.Accounts.LogIn` | bastiq/settings.py:224-224 | A login of an active user stores its time and nothing else. |
| `Store.Database.CreateFreeSubscription` | billing/signals.py:20-30 | Gives the organization a Free subscription exactly when the plan is seeded and there is none yet. |
| `Store.Database.InsertOrgWithOwner` | organizations/views.py:63-66 | All three rows or, when the slug is taken, none. |
| `Store.Database.DestroyOrg` | organizations/views.py:115-120 | Answer and whole new database are those of the specified request. |
| `Store.Database.DeleteMembership` | organizations/models.py:98-103 | Removes the one membership unless the last-owner guard raises, and then nothing. |
| `Store.Database.RemoveMember` | organizations/views.py:143-157 | Answer and whole new database are those of the specified request; the model's guard never raises here. |
| `Store.Database.ChangeRole` | organizations/views.py:143-169 | Answer and whole new database are those of the specified request. |
| `Store.Database.CheckCanInvite` | billing/limits.py:50-61 | Allows exactly when members plus pending invitations are below the cap, or there is none. |
| `Store.Database.Invite` | organizations/views.py:177-220 | Answer and whole new database are those of the specified request, with checks on the lower-cased email. |
| `Store.Database.Accept` | organizations/views.py:239-279 | Answer and whole new database are those of the specified request; the EXPIRED mark stays although the answer is an error. |
| `Store.Database.CreateProject` | projects/views.py:37-50 | Answer and whole new database are those of the specified request. |
| `Store.Database.DestroyProject` | projects/permissions.py:18-24 | Answer and whole new database are those of the specified request. |
| `Store.Database.HandleCheckoutCompleted` | billing/webhooks.py:62-74 | Field by field assignment leaves the subscriptions the specification gives. |
| `Store.Database.HandleSubscriptionUpdated` | billing/webhooks.py:77-93 | Field by field assignment leaves the subscriptions the specification gives. |
| `Store.Database.HandleSubscriptionDeleted` | billing/webhooks.py:96-109 | Field by field assignment leaves the subscriptions the specification gives. |
| `Store.Database.HandlePaymentFailed` | billing/webhooks.py:112-119 | Field by field assignment leaves the subscriptions the specification gives. |
| `Store.Database.PostWebhook` | billing/views.py:134-152 | A duplicate changes nothing, a failure rolls back ledger and subscriptions, and otherwise both are written. |
| `Store.ProjectContext.HasPermission` | core/permissions.py:29-61 | Permits exactly the members of the organization the header names, and attaches that organization and the caller's own membership. |

## Left out

- HTTP, routing, pagination, throttling, serializer field rules, the organization's description field and admin pages: plumbing around the modelled steps.
- Stripe SDK calls, signature verification, checkout and portal views: the model starts from a verified event. The checkout view's own write of a new Stripe customer id to the subscription is not modelled.
- Emails and background tasks: they change no modelled row.
- JWT issuing, rotation and revocation: the actor is an authenticated user id, or one that does not exist and gets 401.
- The verified-email gate of login: it runs after the library has stored the login time, so it does not change which tokens die.
- User deletion, shell edits and seed commands: they bypass the API steps.
- `slugify`, whitespace trimming, email syntax and the 255-character limit: base slugs and emails are arbitrary strings, and candidates are taken to fit the column.
- HMAC, SHA-256, its cut to 20 characters and password hashing: abstract, under the assumptions above.
- Update of an organization, update of a project and the list and read endpoints: specified and covered by every run theorem, but not written as methods of the class.
- Reading one organization and listing one's own: no request of the model.
- Member role edits and removals interleaved statement by statement: the member endpoint takes no lock, so it is modelled one request at a time.
- A webhook handler's lookup is one statement, though it is up to three queries; its read, its save and its commit are separate.
- The permission checks of a project delete or edit: in ProjectLock its find stands for them and the fetch together. What an edit writes into a row is not part of ProjectLock, only whether the row exists.
- Store.Database.Invite: atomic; its statements interleave in InviteLock, for one organization with a fixed finite cap.
- Store.Database.CreateProject: atomic; its statements, and those of Store.Database.DestroyProject and of a project update, interleave in ProjectLock, for one organization.
- LedgerLock.FoldOneAtATime: for events that carry ids of one organization each; for any events LedgerLock.FoldExactly says what each commit needs.
- ProjectRuns.RunAsRequests: all requests are sent by an Owner of the organization, and plan updates move to a cap that some active plan with a price has, as webhooks do.
- InviteLock.SeatBound: the cap is fixed during the run; across plan changes the bound is Seats.SeatHighWater, one request at a time.
- WebhookScope.SettledExactly: for row numbers from 1 on, where database sequences start: no other row can be older than a row numbered 0.
- OrgCreation.CreateOrgWithOwner: rivals only create organizations during the call; a rival deleting one could only free a slug.
