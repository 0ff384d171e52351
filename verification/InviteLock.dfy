/** Invitations of one organization, interleaved statement by statement with each other, with
    acceptances, which lock the invitation and not the subscription, and with removals, which
    take no lock. An invite checks membership, checks pending invitations, counts members and
    counts pending invitations in four separate queries. */
module InviteLock {
  import Models
  import Rbac
  import Billing
  import Requests
  import Invariants
  import Slugs

  /** How far an invite has come. `since` and `counted` remember how many acceptances had
      committed when it made its first existence check and its first count; `members` is what
      that count gave. */
  datatype Txn =
    | Arrived(email: string)
    | Locked(email: string)
    | NotMember(email: string, since: nat)
    | NotPending(email: string, raced: bool)
    | MembersCounted(email: string, raced: bool, members: nat, counted: nat)
    | Cleared(email: string, raced: bool)
    | Inserted(email: string, raced: bool, pk: nat)

  /** The committed rows: the emails of the members, and the pending invitations. The rest is
      history: `joined` lists the emails whose acceptances committed, in order; `window` is the
      largest number of acceptances that committed between the two counts of one invite that
      passed; `raced` are the invitations made although an acceptance by the same email committed
      between the two existence checks of the invite. */
  datatype Db = Db(cap: int, members: set<string>, pending: map<nat, string>, used: set<nat>,
                   txns: map<nat, Txn>, joined: seq<string>, window: nat, raced: set<nat>)

  datatype Event =
    | Arrive(txn: nat, email: string)
    | Lock(txn: nat)
    | CheckMember(txn: nat)
    | CheckPending(txn: nat)
    | CountMembers(txn: nat)
    | CountPending(txn: nat)
    | Insert(txn: nat, pk: nat)
    | Commit(txn: nat)
    | Rollback(txn: nat)
    | Accept(pk: nat)
    | Expire(pk: nat)
    | RemoveMember(email: string)

  predicate Holds(t: Txn) {
    !t.Arrived?
  }

  predicate Free(db: Db) {
    forall t :: t in db.txns ==> !Holds(db.txns[t])
  }

  function Move(db: Db, t: nat, to: Txn): Db {
    db.(txns := db.txns[t := to])
  }

  function Leave(db: Db, t: nat): Db {
    db.(txns := db.txns - {t})
  }

  predicate HasPending(db: Db, email: string) {
    exists pk :: pk in db.pending && db.pending[pk] == email
  }

  function Max(a: nat, b: nat): nat {
    if a < b then b else a
  }

  /** One statement of one invite. */
  function Advance(db: Db, e: Event): Db
    requires !e.Arrive? && !e.Accept? && !e.Expire? && !e.RemoveMember?
    requires e.txn in db.txns
  {
    var t, x := e.txn, db.txns[e.txn];
    match e
    case Lock(_) => if x.Arrived? && Free(db) then Move(db, t, Locked(x.email)) else db
    case CheckMember(_) =>
      if x.Locked? then
        if x.email in db.members then Leave(db, t) else Move(db, t, NotMember(x.email, |db.joined|))
      else db
    case CheckPending(_) =>
      if x.NotMember? then
        if HasPending(db, x.email) then Leave(db, t)
        else Move(db, t, NotPending(x.email, x.since <= |db.joined| && x.email in db.joined[x.since..]))
      else db
    case CountMembers(_) =>
      if x.NotPending? then Move(db, t, MembersCounted(x.email, x.raced, |db.members|, |db.joined|)) else db
    case CountPending(_) =>
      if x.MembersCounted? then
        if x.members + |db.pending| >= db.cap then Leave(db, t)
        else Move(db, t, Cleared(x.email, x.raced)).(window := Max(db.window, Window(db, x)))
      else db
    case Insert(_, pk) =>
      if x.Cleared? && pk !in db.used then
        Move(db, t, Inserted(x.email, x.raced, pk)).(used := db.used + {pk})
      else db
    case Commit(_) =>
      if x.Inserted? then
        Leave(db, t).(pending := db.pending[x.pk := x.email],
                      raced := if x.raced then db.raced + {x.pk} else db.raced)
      else db
    case Rollback(_) => Leave(db, t)
  }

  /** How many acceptances have committed since an invite counted the members. */
  function Window(db: Db, x: Txn): nat
    requires x.MembersCounted?
  {
    if x.counted <= |db.joined| then |db.joined| - x.counted else 0
  }

  /** One committed step: an invite's statement, or another request as a whole. An acceptance adds
      a membership unless the user has one. */
  function Apply(db: Db, e: Event): Db {
    match e
    case Arrive(t, email) => if t in db.txns then db else Move(db, t, Arrived(email))
    case Accept(pk) =>
      if pk in db.pending then
        db.(pending := db.pending - {pk}, members := db.members + {db.pending[pk]},
            joined := db.joined + [db.pending[pk]])
      else db
    case Expire(pk) => db.(pending := db.pending - {pk})
    case RemoveMember(email) => db.(members := db.members - {email})
    case _ => if e.txn in db.txns then Advance(db, e) else db
  }

  function Run(db: Db, es: seq<Event>): Db {
    if es == [] then db else Apply(Run(db, es[..|es| - 1]), es[|es| - 1])
  }

  function Seats(db: Db): nat {
    |db.members| + |db.pending|
  }

  /* ----- the same checks in the request-atomic database ----- */

  function EmailOf(s: Models.State, member: nat): string
    requires member in s.members && s.members[member].row.user in s.users
  {
    Models.Fold(s.users[s.members[member].row.user])
  }

  /** The emails of an organization's members. */
  function MemberEmails(s: Models.State, org: nat): set<string>
    requires Invariants.UniqueMembers(s.users, s.members)
  {
    set m | m in Requests.MemberKeys(s.members, org) :: EmailOf(s, m)
  }

  /** The pending invitations of an organization. */
  function PendingEmails(s: Models.State, org: nat): map<nat, string> {
    map pk | pk in Requests.PendingKeys(s.invites, org) :: Models.Fold(s.invites[pk].row.email)
  }

  /** No two users have emails that are alike but for case. */
  ghost predicate UniqueEmails(users: map<nat, string>) {
    forall u, v :: u in users && v in users && Models.Fold(users[u]) == Models.Fold(users[v]) ==> u == v
  }

  /** Members are as many as their emails. */
  lemma {:induction false} AsManyEmails(s: Models.State, org: nat, keys: set<nat>, emails: set<string>)
    requires Invariants.UniqueMembers(s.users, s.members) && UniqueEmails(s.users)
    requires keys <= Requests.MemberKeys(s.members, org) && emails == set m | m in keys :: EmailOf(s, m)
    ensures |emails| == |keys|
  {
    if keys != {} {
      var m :| m in keys;
      AsManyEmails(s, org, keys - {m}, emails - {EmailOf(s, m)});
      assert |emails - {EmailOf(s, m)}| == |emails| - 1;
    }
  }

  /** The invite request makes the checks above, in the same order, against the same numbers. */
  lemma ChecksAreRequest(s: Models.State, actor: nat, org: nat, email: string, role: Models.Role, now: int,
                         pk: nat, token: nat)
    requires Invariants.UniqueMembers(s.users, s.members) && UniqueEmails(s.users)
    requires var caller := Rbac.CallerRole(s.members, actor, org); caller.Some? && Rbac.CanAssignRole(caller.value, role)
    ensures var members, pending, address := MemberEmails(s, org), PendingEmails(s, org), Models.Fold(email);
            var d := Requests.DoInvite(s, actor, org, email, Models.Some(role), now, pk, token);
            d.answer ==
               if address in members then Requests.BadRequest(Requests.AlreadyMember)
               else if exists k :: k in pending && pending[k] == address then Requests.BadRequest(Requests.AlreadyPending)
               else if Billing.Full(|members| + |pending|, Billing.MemberCap(s.plans, s.subs, org)) then
                 Requests.PaymentRequired
               else
                 Requests.InvitationBody(pk, Models.Invitation(address, role, token, Models.Pending, actor, now + s.lifetime))
  {
    SameSeats(s, org);
    SameMember(s, org, email);
    SamePending(s, org, email);
  }

  lemma SameSeats(s: Models.State, org: nat)
    requires Invariants.UniqueMembers(s.users, s.members) && UniqueEmails(s.users)
    ensures |MemberEmails(s, org)| + |PendingEmails(s, org)| == Requests.Seats(s, org)
  {
    AsManyEmails(s, org, Requests.MemberKeys(s.members, org), MemberEmails(s, org));
    assert PendingEmails(s, org).Keys == Requests.PendingKeys(s.invites, org);
  }

  /** The rows are those of the organization in the request-atomic database. */
  ghost predicate Shows(db: Db, s: Models.State, org: nat)
    requires Invariants.UniqueMembers(s.users, s.members)
  {
    db.members == MemberEmails(s, org) && db.pending == PendingEmails(s, org)
  }

  lemma EmailsRemoved(s: Models.State, t: Models.State, org: nat, member: nat)
    requires Invariants.UniqueMembers(s.users, s.members) && UniqueEmails(s.users)
    requires member in s.members && s.members[member].org == org
    requires t.users == s.users && t.members == s.members - {member}
    ensures Invariants.UniqueMembers(t.users, t.members)
    ensures MemberEmails(t, org) == MemberEmails(s, org) - {EmailOf(s, member)}
  {
    forall x | x in MemberEmails(s, org) - {EmailOf(s, member)}
      ensures x in MemberEmails(t, org)
    {
      var m :| m in Requests.MemberKeys(s.members, org) && EmailOf(s, m) == x;
      assert m in Requests.MemberKeys(t.members, org) && EmailOf(t, m) == x;
    }
    forall x | x in MemberEmails(t, org)
      ensures x in MemberEmails(s, org) - {EmailOf(s, member)}
    {
      var m :| m in Requests.MemberKeys(t.members, org) && EmailOf(t, m) == x;
      assert m in Requests.MemberKeys(s.members, org) && EmailOf(s, m) == x;
    }
  }

  lemma EmailsJoined(s: Models.State, t: Models.State, org: nat, pk: nat, row: Models.Membership)
    requires Invariants.UniqueMembers(s.users, s.members) && pk !in s.members && row.user in s.users
    requires t.users == s.users && t.members == s.members[pk := Models.Scoped(org, row)]
    requires Invariants.UniqueMembers(t.users, t.members)
    ensures MemberEmails(t, org) == MemberEmails(s, org) + {Models.Fold(s.users[row.user])}
  {
    assert pk in Requests.MemberKeys(t.members, org) && EmailOf(t, pk) == Models.Fold(s.users[row.user]);
    forall x | x in MemberEmails(s, org)
      ensures x in MemberEmails(t, org)
    {
      var m :| m in Requests.MemberKeys(s.members, org) && EmailOf(s, m) == x;
      assert m in Requests.MemberKeys(t.members, org) && EmailOf(t, m) == x;
    }
    forall x | x in MemberEmails(t, org)
      ensures x in MemberEmails(s, org) + {Models.Fold(s.users[row.user])}
    {
      var m :| m in Requests.MemberKeys(t.members, org) && EmailOf(t, m) == x;
      assert m != pk ==> m in Requests.MemberKeys(s.members, org) && EmailOf(s, m) == x;
    }
  }

  lemma PendingPut(s: Models.State, t: Models.State, org: nat, key: nat, row: Models.Invitation)
    requires key in s.invites ==> s.invites[key].org == org
    requires t.invites == s.invites[key := Models.Scoped(org, row)]
    ensures PendingEmails(t, org) == if row.status == Models.Pending then PendingEmails(s, org)[key := Models.Fold(row.email)]
                                     else PendingEmails(s, org) - {key}
  {
  }

  /** A removal of a member is the write of the remove request. */
  lemma RemovalIsWrite(db: Db, s: Models.State, org: nat, member: nat)
    requires Invariants.UniqueMembers(s.users, s.members) && UniqueEmails(s.users) && Shows(db, s, org)
    requires member in s.members && s.members[member].org == org
    ensures var t := Requests.Apply(s, Requests.MemberRemoved(member));
            && Invariants.UniqueMembers(t.users, t.members)
            && Shows(Apply(db, RemoveMember(EmailOf(s, member))), t, org)
  {
    var t := Requests.Apply(s, Requests.MemberRemoved(member));
    EmailsRemoved(s, t, org, member);
    assert PendingEmails(t, org) == PendingEmails(s, org);
  }

  /** An expiry is the write of an accept request that comes too late. */
  lemma ExpiryIsWrite(db: Db, s: Models.State, actor: nat, c: Requests.Change)
    requires c.MarkedExpired? && Requests.Justified(s, actor, c)
    requires Invariants.UniqueMembers(s.users, s.members) && Shows(db, s, c.org)
    ensures var t := Requests.Apply(s, c);
            Invariants.UniqueMembers(t.users, t.members) && Shows(Apply(db, Expire(c.key)), t, c.org)
  {
    var t := Requests.Apply(s, c);
    PendingPut(s, t, c.org, c.key, c.spent);
    assert MemberEmails(t, c.org) == MemberEmails(s, c.org);
  }

  /** An acceptance is the write of an accept request. */
  lemma AcceptIsWrite(db: Db, s: Models.State, actor: nat, c: Requests.Change)
    requires c.Joined? && Requests.Justified(s, actor, c) && c.pk !in s.members
    requires Invariants.UniqueMembers(s.users, s.members) && Shows(db, s, c.org)
    requires Invariants.UniqueMembers(s.users, Requests.Apply(s, c).members)
    ensures Shows(Apply(db, Accept(c.key)), Requests.Apply(s, c), c.org)
  {
    var t := Requests.Apply(s, c);
    PendingPut(s, t, c.org, c.key, c.spent);
    EmailsJoined(s, t, c.org, c.pk, c.membership);
    assert db.pending[c.key] == Models.Fold(s.users[actor]);
  }

  /** The commit of an invite is the write of the invite request. */
  lemma CommitIsWrite(db: Db, s: Models.State, actor: nat, c: Requests.Change, t: nat)
    requires c.Invited? && Requests.Justified(s, actor, c) && c.pk !in s.invites
    requires Invariants.UniqueMembers(s.users, s.members) && Shows(db, s, c.org)
    requires t in db.txns && db.txns[t].Inserted? && db.txns[t].email == c.invitation.email && db.txns[t].pk == c.pk
    ensures Shows(Apply(db, Commit(t)), Requests.Apply(s, c), c.org)
  {
    var after := Requests.Apply(s, c);
    PendingPut(s, after, c.org, c.pk, c.invitation);
    assert MemberEmails(after, c.org) == MemberEmails(s, c.org);
  }

  lemma SameMember(s: Models.State, org: nat, email: string)
    requires Invariants.UniqueMembers(s.users, s.members)
    ensures Models.Fold(email) in MemberEmails(s, org) <==> Requests.MembersByEmail(s.users, s.members, org, email) != {}
  {
    if m :| m in Requests.MembersByEmail(s.users, s.members, org, email) {
      assert m in Requests.MemberKeys(s.members, org) && EmailOf(s, m) == Models.Fold(email);
    }
    if Models.Fold(email) in MemberEmails(s, org) {
      var m :| m in Requests.MemberKeys(s.members, org) && EmailOf(s, m) == Models.Fold(email);
      assert m in Requests.MembersByEmail(s.users, s.members, org, email);
    }
  }

  lemma SamePending(s: Models.State, org: nat, email: string)
    ensures (exists k :: k in PendingEmails(s, org) && PendingEmails(s, org)[k] == Models.Fold(email)) <==>
            Requests.PendingByEmail(s.invites, org, email) != {}
  {
    if k :| k in Requests.PendingByEmail(s.invites, org, email) {
      assert k in PendingEmails(s, org) && PendingEmails(s, org)[k] == Models.Fold(email);
    }
    if k :| k in PendingEmails(s, org) && PendingEmails(s, org)[k] == Models.Fold(email) {
      assert k in Requests.PendingByEmail(s.invites, org, email);
    }
  }

  /* ----- what every interleaving keeps ----- */

  ghost predicate OneHolder(db: Db) {
    forall t, u :: t in db.txns && u in db.txns && Holds(db.txns[t]) && Holds(db.txns[u]) ==> t == u
  }

  /** The acceptances an invite remembers are among those that have committed. */
  ghost predicate Remembers(db: Db, x: Txn) {
    match x
    case NotMember(_, since) => since <= |db.joined|
    case MembersCounted(_, _, _, counted) => counted <= |db.joined|
    case Inserted(_, _, pk) => pk in db.used && pk !in db.pending
    case _ => true
  }

  /** Members can have grown only by the acceptances since they were counted, and an invite past
      both counts leaves room for itself up to the largest window. */
  ghost predicate LeavesRoom(db: Db, x: Txn) {
    match x
    case MembersCounted(_, _, members, _) => |db.members| <= members + Window(db, x)
    case Cleared(_, _) => Seats(db) + 1 <= db.cap + db.window
    case Inserted(_, _, _) => Seats(db) + 1 <= db.cap + db.window
    case _ => true
  }

  /** From its existence checks on, an invite's email has no pending invitation, and no membership
      unless it was raced. */
  ghost predicate StillNew(db: Db, x: Txn) {
    match x
    case Arrived(_) => true
    case Locked(_) => true
    case NotMember(email, since) =>
      email in db.members ==> since <= |db.joined| && email in db.joined[since..]
    case _ => !HasPending(db, x.email) && (x.email in db.members ==> x.raced)
  }

  ghost predicate SeatInv(db: Db) {
    && OneHolder(db)
    && (forall pk :: pk in db.pending ==> pk in db.used)
    && (forall t :: t in db.txns ==> Remembers(db, db.txns[t]))
    && (forall t :: t in db.txns ==> LeavesRoom(db, db.txns[t]))
    && Seats(db) <= db.cap + db.window
  }

  ghost predicate EmailInv(db: Db) {
    && (forall p, q :: p in db.pending && q in db.pending && db.pending[p] == db.pending[q] ==> p == q)
    && (forall p :: p in db.pending && db.pending[p] in db.members ==> p in db.raced)
    && (forall t :: t in db.txns ==> StillNew(db, db.txns[t]))
  }

  lemma OneHolderKept(db: Db, e: Event)
    requires OneHolder(db)
    ensures OneHolder(Apply(db, e))
  {
  }

  lemma Shrinks<K, V>(m: map<K, V>, k: K)
    ensures |m - {k}| == if k in m then |m| - 1 else |m|
  {
    assert (m - {k}).Keys == m.Keys - {k};
  }

  lemma Joins(members: set<string>, email: string)
    ensures |members + {email}| <= |members| + 1
    ensures |members - {email}| <= |members|
  {
    assert members - {email} <= members;
    assert members == (members - {email}) + (members * {email});
  }

  /** An acceptance never adds to the seats in use, and adds at most one member. */
  lemma AcceptAddsNoSeat(db: Db, pk: nat)
    ensures var after := Apply(db, Accept(pk));
            && Seats(after) <= Seats(db)
            && |after.members| <= |db.members| + |after.joined| - |db.joined|
  {
    if pk in db.pending {
      Shrinks(db.pending, pk);
      Joins(db.members, db.pending[pk]);
    }
  }

  /** Expiries and removals never add to the seats in use either. */
  lemma ExpireAddsNoSeat(db: Db, pk: nat)
    ensures Seats(Apply(db, Expire(pk))) <= Seats(db)
  {
    Shrinks(db.pending, pk);
  }

  lemma RemoveAddsNoSeat(db: Db, email: string)
    ensures Seats(Apply(db, RemoveMember(email))) <= Seats(db)
    ensures |Apply(db, RemoveMember(email)).members| <= |db.members|
  {
    Joins(db.members, email);
  }

  predicate Outside(e: Event) {
    e.Accept? || e.Expire? || e.RemoveMember?
  }

  /** Requests other than invites leave the invites in flight as they are. */
  lemma OutsideKeeps(db: Db, e: Event)
    requires Outside(e)
    ensures Apply(db, e).txns == db.txns
    ensures Apply(db, e).cap == db.cap && Apply(db, e).window == db.window && Apply(db, e).used == db.used
    ensures Apply(db, e).pending.Keys <= db.pending.Keys
  {
  }

  /** They add no seat, and no more members than acceptances. */
  lemma OutsideSeats(db: Db, e: Event)
    requires Outside(e)
    ensures Seats(Apply(db, e)) <= Seats(db)
    ensures |db.joined| <= |Apply(db, e).joined|
    ensures |Apply(db, e).members| <= |db.members| + |Apply(db, e).joined| - |db.joined|
  {
    match e
    case Accept(pk) => AcceptAddsNoSeat(db, pk);
    case Expire(pk) => ExpireAddsNoSeat(db, pk);
    case RemoveMember(email) => RemoveAddsNoSeat(db, email);
  }

  lemma InsideGrows(db: Db, e: Event)
    requires !Outside(e)
    ensures Apply(db, e).window >= db.window
    ensures db.used <= Apply(db, e).used
  {
  }

  /** No statement of an invite changes the members or the cap. */
  lemma InsideKeeps(db: Db, e: Event)
    requires !Outside(e)
    ensures Apply(db, e).members == db.members
    ensures Apply(db, e).joined == db.joined
    ensures Apply(db, e).cap == db.cap
    ensures Apply(db, e).window >= db.window
    ensures db.used <= Apply(db, e).used
  {
    InsideGrows(db, e);
  }

  /** Only its commit changes the pending invitations. */
  lemma InsidePending(db: Db, e: Event)
    requires !Outside(e)
    ensures if e.Commit? && e.txn in db.txns && db.txns[e.txn].Inserted? then
              Apply(db, e).pending == db.pending[db.txns[e.txn].pk := db.txns[e.txn].email]
            else Apply(db, e).pending == db.pending
  {
  }

  /** A transaction that did not take this step is where it was. */
  lemma OthersWait(db: Db, e: Event, t: nat)
    requires !Outside(e) && t != e.txn
    ensures var after := Apply(db, e).txns;
            (t in after <==> t in db.txns) && (t in after ==> after[t] == db.txns[t])
  {
  }

  /** Only the holder of the lock moves past it. */
  lemma HolderMoves(db: Db, e: Event, t: nat)
    requires !Outside(e) && OneHolder(db) && t != e.txn && t in db.txns && Holds(db.txns[t])
    ensures var after := Apply(db, e);
            && after.pending == db.pending && after.used == db.used && after.window == db.window
            && (e.txn in after.txns ==> after.txns[e.txn].Arrived?)
  {
  }

  lemma RemembersKept(db: Db, e: Event, t: nat)
    requires SeatInv(db) && t in Apply(db, e).txns
    ensures Remembers(Apply(db, e), Apply(db, e).txns[t])
  {
    if Outside(e) {
      OutsideKeeps(db, e);
      OutsideSeats(db, e);
    } else if t != e.txn {
      OthersWait(db, e, t);
      if Holds(db.txns[t]) {
        HolderMoves(db, e, t);
      }
    }
    assert t in db.txns ==> Remembers(db, db.txns[t]);
  }

  lemma RoomStays(db: Db, after: Db, x: Txn)
    requires Remembers(db, x) && LeavesRoom(db, x) && after.cap == db.cap && after.window >= db.window
    requires Seats(after) <= Seats(db) && |db.joined| <= |after.joined|
    requires |after.members| <= |db.members| + |after.joined| - |db.joined|
    ensures LeavesRoom(after, x)
  {
  }

  /** The step of an invite leaves it room again. */
  lemma OwnRoom(db: Db, e: Event)
    requires !Outside(e) && e.txn in Apply(db, e).txns && Seats(db) <= db.cap + db.window
    requires e.txn in db.txns ==> Remembers(db, db.txns[e.txn]) && LeavesRoom(db, db.txns[e.txn])
    ensures LeavesRoom(Apply(db, e), Apply(db, e).txns[e.txn])
  {
    InsideKeeps(db, e);
    InsidePending(db, e);
  }

  lemma LeavesRoomKept(db: Db, e: Event, t: nat)
    requires SeatInv(db) && t in Apply(db, e).txns
    ensures LeavesRoom(Apply(db, e), Apply(db, e).txns[t])
  {
    var after := Apply(db, e);
    if Outside(e) {
      OutsideKeeps(db, e);
      OutsideSeats(db, e);
      RoomStays(db, after, db.txns[t]);
    } else if t == e.txn {
      OwnRoom(db, e);
    } else {
      OthersWait(db, e, t);
      if Holds(db.txns[t]) {
        HolderMoves(db, e, t);
        InsideKeeps(db, e);
        InsidePending(db, e);
        RoomStays(db, after, db.txns[t]);
      }
    }
  }

  lemma SeatsWithinKept(db: Db, e: Event)
    requires SeatInv(db)
    ensures Seats(Apply(db, e)) <= Apply(db, e).cap + Apply(db, e).window
  {
    if Outside(e) {
      OutsideKeeps(db, e);
      OutsideSeats(db, e);
    } else {
      InsideKeeps(db, e);
      InsidePending(db, e);
      if Apply(db, e).pending != db.pending {
        var x := db.txns[e.txn];
        assert LeavesRoom(db, x) && Remembers(db, x);
        assert Apply(db, e).pending.Keys == db.pending.Keys + {x.pk};
      }
    }
  }

  lemma UsedKept(db: Db, e: Event)
    requires SeatInv(db)
    ensures forall pk :: pk in Apply(db, e).pending ==> pk in Apply(db, e).used
  {
    if Outside(e) {
      OutsideKeeps(db, e);
    } else {
      InsideKeeps(db, e);
      InsidePending(db, e);
      assert e.txn in db.txns ==> Remembers(db, db.txns[e.txn]);
    }
  }

  lemma SeatsKept(db: Db, e: Event)
    requires SeatInv(db)
    ensures var after := Apply(db, e); SeatInv(after)
  {
    var after := Apply(db, e);
    OneHolderKept(db, e);
    forall t | t in after.txns
      ensures Remembers(after, after.txns[t]) && LeavesRoom(after, after.txns[t])
    {
      RemembersKept(db, e, t);
      LeavesRoomKept(db, e, t);
    }
    SeatsWithinKept(db, e);
    UsedKept(db, e);
  }

  /** A run starts with no invite in flight and no history. */
  predicate Idle(db: Db) {
    && db.txns == map[] && db.joined == [] && db.window == 0 && db.raced == {}
    && db.pending.Keys <= db.used
  }

  /** Under any interleaving, members plus pending invitations exceed the cap by at most the
      largest number of acceptances that committed between the two counts of one invite. */
  lemma {:induction false} SeatBound(db: Db, es: seq<Event>)
    requires Idle(db) && Seats(db) <= db.cap
    ensures var d := Run(db, es); SeatInv(d) && d.cap == db.cap && Seats(d) <= db.cap + d.window
  {
    if es != [] {
      SeatBound(db, es[..|es| - 1]);
      SeatsKept(Run(db, es[..|es| - 1]), es[|es| - 1]);
    }
  }

  /* ----- emails ----- */

  /** No request but an invite's commit adds a pending email; an acceptance adds a member whose
      pending invitation it takes away. */
  lemma UniqueKept(db: Db, e: Event)
    requires EmailInv(db)
    ensures var after := Apply(db, e);
            && (forall p, q :: p in after.pending && q in after.pending && after.pending[p] == after.pending[q] ==> p == q)
            && (forall p :: p in after.pending && after.pending[p] in after.members ==> p in after.raced)
  {
    if !Outside(e) {
      InsideKeeps(db, e);
      InsidePending(db, e);
      assert e.txn in db.txns ==> StillNew(db, db.txns[e.txn]);
    }
  }

  lemma AcceptKeepsNew(db: Db, pk: nat, x: Txn)
    requires pk in db.pending && StillNew(db, x) && Remembers(db, x)
    ensures StillNew(Apply(db, Accept(pk)), x)
  {
    var after, email := Apply(db, Accept(pk)), db.pending[pk];
    if x.NotMember? {
      assert after.joined[x.since..] == db.joined[x.since..] + [email];
    } else if !x.Arrived? && !x.Locked? {
      assert HasPending(db, email);
      assert HasPending(after, x.email) ==> HasPending(db, x.email);
    }
  }

  lemma LossKeepsNew(db: Db, e: Event, x: Txn)
    requires (e.Expire? || e.RemoveMember?) && StillNew(db, x)
    ensures StillNew(Apply(db, e), x)
  {
    if !x.Arrived? && !x.Locked? && !x.NotMember? {
      assert HasPending(Apply(db, e), x.email) ==> HasPending(db, x.email);
    }
  }

  lemma NewStays(db: Db, e: Event, x: Txn)
    requires Outside(e) && StillNew(db, x) && Remembers(db, x)
    ensures StillNew(Apply(db, e), x)
  {
    if e.Accept? {
      if e.pk in db.pending {
        AcceptKeepsNew(db, e.pk, x);
      }
    } else {
      LossKeepsNew(db, e, x);
    }
  }

  lemma OwnNew(db: Db, e: Event)
    requires !Outside(e) && e.txn in Apply(db, e).txns
    requires e.txn in db.txns ==> StillNew(db, db.txns[e.txn]) && Remembers(db, db.txns[e.txn])
    ensures StillNew(Apply(db, e), Apply(db, e).txns[e.txn])
  {
  }

  lemma StillNewKept(db: Db, e: Event, t: nat)
    requires SeatInv(db) && EmailInv(db) && t in Apply(db, e).txns
    ensures StillNew(Apply(db, e), Apply(db, e).txns[t])
  {
    assert t in db.txns ==> StillNew(db, db.txns[t]) && Remembers(db, db.txns[t]);
    if Outside(e) {
      OutsideKeeps(db, e);
      NewStays(db, e, db.txns[t]);
    } else if t == e.txn {
      OwnNew(db, e);
    } else {
      OthersWait(db, e, t);
      if Holds(db.txns[t]) {
        HolderMoves(db, e, t);
        InsideKeeps(db, e);
        InsidePending(db, e);
      }
    }
  }

  lemma EmailsKept(db: Db, e: Event)
    requires SeatInv(db) && EmailInv(db)
    ensures var after := Apply(db, e); EmailInv(after)
  {
    UniqueKept(db, e);
    forall t | t in Apply(db, e).txns
      ensures StillNew(Apply(db, e), Apply(db, e).txns[t])
    {
      StillNewKept(db, e, t);
    }
  }

  /** Under any interleaving there is at most one pending invitation per email, and a pending one
      for a member only if that member's acceptance committed between the two existence checks
      of the invite that made it. */
  lemma {:induction false} EmailBound(db: Db, es: seq<Event>)
    requires Idle(db) && Seats(db) <= db.cap
    requires forall p, q :: p in db.pending && q in db.pending && db.pending[p] == db.pending[q] ==> p == q
    requires forall p :: p in db.pending ==> db.pending[p] !in db.members
    ensures var d := Run(db, es); EmailInv(d)
  {
    if es != [] {
      var init := es[..|es| - 1];
      EmailBound(db, init);
      SeatBound(db, init);
      EmailsKept(Run(db, init), es[|es| - 1]);
    }
  }

  /* ----- both bounds are reached ----- */

  ghost predicate Reaches(db: Db, d: Db) {
    exists es :: Run(db, es) == d
  }

  lemma OneMore(db: Db, d: Db, e: Event)
    requires Reaches(db, d)
    ensures Reaches(db, Apply(d, e))
  {
    var es :| Run(db, es) == d;
    assert (es + [e])[..|es|] == es;
    assert Run(db, es + [e]) == Apply(d, e);
  }

  /** An invite for someone who is no member takes the lock and passes the first check. */
  lemma ChecksMember(db: Db, d: Db, t: nat)
    requires Reaches(db, d) && t in d.txns && d.txns[t].Arrived? && Free(d)
    requires d.txns[t].email !in d.members
    ensures Reaches(db, Move(d, t, NotMember(d.txns[t].email, |d.joined|)))
  {
    var locked := Move(d, t, Locked(d.txns[t].email));
    OneMore(db, d, Lock(t));
    OneMore(db, locked, CheckMember(t));
    assert Move(locked, t, NotMember(d.txns[t].email, |d.joined|)) ==
           Move(d, t, NotMember(d.txns[t].email, |d.joined|));
  }

  /** One for a new email passes the second check too. */
  lemma ChecksPending(db: Db, d: Db, t: nat)
    requires Reaches(db, d) && t in d.txns && d.txns[t].Arrived? && Free(d)
    requires d.txns[t].email !in d.members && !HasPending(d, d.txns[t].email)
    ensures Reaches(db, Move(d, t, NotPending(d.txns[t].email, false)))
  {
    var email := d.txns[t].email;
    ChecksMember(db, d, t);
    var checked := Move(d, t, NotMember(email, |d.joined|));
    OneMore(db, checked, CheckPending(t));
    assert Move(checked, t, NotPending(email, false)) == Move(d, t, NotPending(email, false));
  }

  /** What an invite that has counted the members and finds room leaves. */
  function Landed(d: Db, t: nat, pk: nat): Db
    requires t in d.txns && d.txns[t].MembersCounted?
  {
    var x := d.txns[t];
    Leave(d, t).(pending := d.pending[pk := x.email], used := d.used + {pk}, window := Max(d.window, Window(d, x)),
                 raced := if x.raced then d.raced + {pk} else d.raced)
  }

  lemma Clears(db: Db, d: Db, t: nat)
    requires Reaches(db, d) && t in d.txns && d.txns[t].MembersCounted?
    requires d.txns[t].members + |d.pending| < d.cap
    ensures var x := d.txns[t];
            Reaches(db, d.(txns := d.txns[t := Cleared(x.email, x.raced)], window := Max(d.window, Window(d, x))))
  {
    OneMore(db, d, CountPending(t));
  }

  lemma Commits(db: Db, d: Db, t: nat, pk: nat)
    requires Reaches(db, d) && t in d.txns && d.txns[t].Cleared? && pk !in d.used
    ensures var x := d.txns[t];
            Reaches(db, d.(txns := d.txns - {t}, pending := d.pending[pk := x.email], used := d.used + {pk},
                           raced := if x.raced then d.raced + {pk} else d.raced))
  {
    var x := d.txns[t];
    OneMore(db, d, Insert(t, pk));
    var inserted := Move(d, t, Inserted(x.email, x.raced, pk)).(used := d.used + {pk});
    OneMore(db, inserted, Commit(t));
    assert inserted.txns - {t} == d.txns - {t};
  }

  lemma Finishes(db: Db, d: Db, t: nat, pk: nat)
    requires Reaches(db, d) && t in d.txns && d.txns[t].MembersCounted? && pk !in d.used
    requires d.txns[t].members + |d.pending| < d.cap
    ensures Reaches(db, Landed(d, t, pk))
  {
    var x := d.txns[t];
    Clears(db, d, t);
    var cleared := d.(txns := d.txns[t := Cleared(x.email, x.raced)], window := Max(d.window, Window(d, x)));
    Commits(db, cleared, t, pk);
    assert cleared.txns - {t} == d.txns - {t};
  }

  /** Pending emails are distinct and none is a member's. */
  ghost predicate Apart(members: set<string>, pending: map<nat, string>) {
    && (forall p, q :: p in pending && q in pending && pending[p] == pending[q] ==> p == q)
    && (forall p :: p in pending ==> pending[p] !in members)
  }

  ghost predicate Tidy(d: Db) {
    Apart(d.members, d.pending)
  }

  function Emails(d: Db): set<string> {
    d.members + d.pending.Values
  }

  function Accepted(d: Db, pk: nat): Db
    requires pk in d.pending
  {
    d.(pending := d.pending - {pk}, members := d.members + {d.pending[pk]}, joined := d.joined + [d.pending[pk]])
  }

  lemma AcceptOne(db: Db, d: Db, pk: nat)
    requires Reaches(db, d) && Tidy(d) && pk in d.pending
    ensures Reaches(db, Accepted(d, pk)) && Tidy(Accepted(d, pk)) && Emails(Accepted(d, pk)) <= Emails(d)
    ensures |Accepted(d, pk).pending| == |d.pending| - 1 && |Accepted(d, pk).members| == |d.members| + 1
  {
    OneMore(db, d, Accept(pk));
    Shrinks(d.pending, pk);
  }

  /** That many invited users accept, whatever invite is under way. */
  lemma {:induction false} AcceptMany(db: Db, d: Db, n: nat) returns (after: Db)
    requires Reaches(db, d) && Tidy(d) && n <= |d.pending|
    ensures Reaches(db, after) && Tidy(after) && Emails(after) <= Emails(d)
    ensures after == d.(pending := after.pending, members := after.members, joined := after.joined)
    ensures |after.pending| == |d.pending| - n && |after.members| == |d.members| + n
    ensures |after.joined| == |d.joined| + n && after.pending.Keys <= d.pending.Keys
    decreases n
  {
    after := d;
    if n > 0 {
      var pk :| pk in d.pending.Keys;
      AcceptOne(db, d, pk);
      after := AcceptMany(db, Accepted(d, pk), n - 1);
    }
  }

  /** An invite to someone new arrives, passes the existence checks and counts the members. */
  lemma Counts(db: Db, d: Db, email: string)
    requires Reaches(db, d) && d.txns == map[] && email !in Emails(d)
    ensures Reaches(db, d.(txns := map[0 := MembersCounted(email, false, |d.members|, |d.joined|)]))
  {
    OneMore(db, d, Arrive(0, email));
    var arrived := Move(d, 0, Arrived(email));
    ChecksPending(db, arrived, 0);
    var checked := Move(arrived, 0, NotPending(email, false));
    OneMore(db, checked, CountMembers(0));
    assert checked.txns == map[0 := NotPending(email, false)];
  }

  /** No invite is under way, the seats are w over the cap, and numbers from b on are unused. */
  ghost predicate Over(d: Db, w: nat, b: nat) {
    && d.txns == map[] && Tidy(d) && d.window == w && Seats(d) == d.cap + w
    && NumberedBelow(d.pending.Keys, d.used, b)
  }

  predicate NumberedBelow(keys: set<nat>, used: set<nat>, b: nat) {
    keys <= used && forall pk :: pk in used ==> pk < b
  }

  lemma NumberedNext(keys: set<nat>, used: set<nat>, b: nat)
    requires NumberedBelow(keys, used, b)
    ensures NumberedBelow(keys + {b}, used + {b}, b + 1) && b !in keys && b !in used
  {
  }

  /** An invite whose acceptances outnumber the excess so far adds one to it. */
  lemma OneOver(db: Db, d: Db, w: nat, b: nat) returns (after: Db)
    requires Reaches(db, d) && Over(d, w, b) && |d.pending| >= w + 1
    ensures Reaches(db, after) && Over(after, w + 1, b + 1) && |after.pending| == |d.pending| - w
  {
    var email := Slugs.FreeSlug("", Emails(d));
    Counts(db, d, email);
    var x := MembersCounted(email, false, |d.members|, |d.joined|);
    var late := AcceptMany(db, d.(txns := map[0 := x]), w + 1);
    Finishes(db, late, 0, b);
    LandedAs(late, x, b);
    after := Landed(late, 0, b);
    assert email !in Emails(late);
    LandsOver(late, email, w, b);
  }

  /** One more invitation takes seats that are w over the cap to w + 1. */
  lemma LandsOver(late: Db, email: string, w: nat, b: nat)
    requires Tidy(late) && email !in Emails(late) && Seats(late) == late.cap + w
    requires NumberedBelow(late.pending.Keys, late.used, b)
    ensures var after := late.(txns := map[], pending := late.pending[b := email], used := late.used + {b}, window := w + 1);
            Over(after, w + 1, b + 1) && |after.pending| == |late.pending| + 1
  {
    NumberedNext(late.pending.Keys, late.used, b);
    Grows(late.pending, b, email);
    StaysApart(late.members, late.pending, b, email);
  }

  lemma LandedAs(late: Db, x: Txn, b: nat)
    requires late.txns == map[0 := x] && x.MembersCounted? && !x.raced && x.counted <= |late.joined|
    ensures Landed(late, 0, b) == late.(txns := map[], pending := late.pending[b := x.email], used := late.used + {b},
                                        window := Max(late.window, |late.joined| - x.counted))
  {
    assert late.txns - {0} == map[];
  }

  lemma Grows(pending: map<nat, string>, pk: nat, email: string)
    requires pk !in pending
    ensures |pending[pk := email]| == |pending| + 1 && pending[pk := email].Keys == pending.Keys + {pk}
  {
    assert pending[pk := email].Keys == pending.Keys + {pk};
    assert |pending[pk := email]| == |pending[pk := email].Keys| && |pending| == |pending.Keys|;
  }

  lemma StaysApart(members: set<string>, pending: map<nat, string>, pk: nat, email: string)
    requires Apart(members, pending) && pk !in pending && email !in members && email !in pending.Values
    ensures Apart(members, pending[pk := email])
  {
    assert forall p :: p in pending ==> pending[p] in pending.Values;
  }

  /** Pending invitations that k rounds from an excess of w use up. */
  function Needed(w: nat, k: nat): nat
    decreases k
  {
    if k == 0 then 0 else w + 1 + Needed(w + 1, k - 1)
  }

  /** A state that is reached, so far over the cap and with so many pending invitations to spend. */
  ghost predicate RoundsOn(db: Db, d: Db, w: nat, b: nat, pending: nat) {
    Reaches(db, d) && Over(d, w, b) && |d.pending| >= pending
  }

  lemma OneRound(db: Db, d: Db, w: nat, b: nat, more: nat) returns (after: Db)
    requires RoundsOn(db, d, w, b, w + 1 + more)
    ensures RoundsOn(db, after, w + 1, b + 1, more)
  {
    after := OneOver(db, d, w, b);
  }

  lemma {:induction false} Rounds(db: Db, d: Db, w: nat, b: nat, k: nat) returns (after: Db)
    requires RoundsOn(db, d, w, b, Needed(w, k))
    ensures RoundsOn(db, after, w + k, b + k, 0)
    decreases k
  {
    after := d;
    if k > 0 {
      var next := OneRound(db, d, w, b, Needed(w + 1, k - 1));
      after := Rounds(db, next, w + 1, b + 1, k - 1);
    }
  }

  /** n invitations to n different people. */
  lemma {:induction false} ManyInvited(n: nat) returns (pending: map<nat, string>)
    ensures |pending| == n && (forall pk :: pk in pending ==> pk < n)
    ensures forall p, q :: p in pending && q in pending && pending[p] == pending[q] ==> p == q
  {
    if n == 0 {
      pending := map[];
    } else {
      var fewer := ManyInvited(n - 1);
      pending := fewer[n - 1 := Slugs.FreeSlug("", fewer.Values)];
      Grows(fewer, n - 1, pending[n - 1]);
      assert forall p :: p in fewer ==> fewer[p] in fewer.Values;
    }
  }

  /** The bound is exact: for every k some organization with a member that starts within its cap ends k seats over
      it, with at most k acceptances between the two counts of any one invite. */
  lemma BoundReached(k: nat)
    ensures exists db, d :: && Idle(db) && db.members != {} && Seats(db) <= db.cap
                            && Reaches(db, d) && d.window == k && Seats(d) == d.cap + k
  {
    var pending := ManyInvited(Needed(0, k));
    var owner := Slugs.FreeSlug("", pending.Values);
    var db := Db(|pending| + 1, {owner}, pending, pending.Keys, map[], [], 0, {});
    assert forall p :: p in pending ==> pending[p] in pending.Values;
    assert Run(db, []) == db;
    assert Over(db, 0, |pending|);
    var d := Rounds(db, db, 0, |pending|, k);
  }

  /** One member, one invited, and an invite to the one already invited arriving. */
  function Rechecking(): Db {
    Db(9, {"a"}, map[1 := "b"], {1}, map[9 := Arrived("b")], [], 0, {})
  }

  lemma JoinedUnseen() returns (d: Db)
    ensures Reaches(Rechecking(), d)
    ensures d == Rechecking().(pending := map[], members := {"a", "b"}, joined := ["b"],
                               txns := map[9 := NotPending("b", true)])
  {
    var d0 := Rechecking();
    assert Run(d0, []) == d0;
    ChecksMember(d0, d0, 9);
    var checked := Move(d0, 9, NotMember("b", 0));
    OneMore(d0, checked, Accept(1));
    var d1 := checked.(pending := map[], members := {"a", "b"}, joined := ["b"]);
    assert Apply(checked, Accept(1)) == d1;
    OneMore(d0, d1, CheckPending(9));
    assert d1.joined[0..] == ["b"];
    d := Move(d1, 9, NotPending("b", true));
  }

  /** An acceptance between the two existence checks lets its own email be invited again: the
      pending invitation is for someone who already is a member. */
  lemma InvitedAgain()
    ensures exists d :: Reaches(Rechecking(), d) && HasPending(d, "b") && "b" in d.members
  {
    var d0 := Rechecking();
    var d2 := JoinedUnseen();
    OneMore(d0, d2, CountMembers(9));
    var d3 := Apply(d2, CountMembers(9));
    assert |{"a", "b"}| == 2;
    Finishes(d0, d3, 9, 2);
    var d4 := Landed(d3, 9, 2);
    assert 2 in d4.pending && d4.pending[2] == "b";
  }
}
