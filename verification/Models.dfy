/** The rows the tenant core keeps: organizations, memberships, invitations,
    projects, subscriptions, the plan catalogue and the webhook ledger. */
module Models {

  datatype Option<+T> = None | Some(value: T)

  datatype Role = Owner | Admin | Member

  /** Privilege rank: a higher number is more powerful. */
  function Rank(role: Role): nat {
    match role
    case Member => 1
    case Admin => 2
    case Owner => 3
  }

  datatype Status = Pending | Accepted | Revoked | Expired

  datatype SubscriptionStatus = Active | PastDue | Canceled | Incomplete

  datatype Organization = Organization(name: string, slug: string, createdBy: nat)

  datatype Membership = Membership(user: nat, role: Role)

  datatype Invitation = Invitation(email: string, role: Role, token: nat, status: Status,
                                   invitedBy: nat, expiresAt: int)

  datatype Project = Project(name: string, createdBy: nat)

  /** `plan` is the code of a catalogue plan; a blank Stripe id means none is known. */
  datatype Subscription = Subscription(plan: string, customerId: string, subscriptionId: string,
                                       status: SubscriptionStatus, periodEnd: Option<int>)

  /** A cap of None means unlimited. */
  datatype Plan = Plan(code: string, priceId: string, maxProjects: Option<int>,
                       maxMembers: Option<int>, active: bool)

  /** A row owned by an organization, as its foreign key says. */
  datatype Scoped<+T> = Scoped(org: nat, row: T)

  /** A table of organization-owned rows by primary key. */
  type Table<T> = map<nat, Scoped<T>>

  /** The database. `users` maps a user to an email; users, plans and the invitation
      lifetime never change in this model. */
  datatype State = State(
    users: map<nat, string>,
    plans: seq<Plan>,
    lifetime: int,
    orgs: map<nat, Organization>,
    members: Table<Membership>,
    invites: Table<Invitation>,
    projects: Table<Project>,
    subs: Table<Subscription>,
    ledger: set<string>)

  /** The rows of one organization. */
  function Of<T>(table: Table<T>, org: nat): Table<T> {
    map pk | pk in table && table[pk].org == org :: table[pk]
  }

  /** What is left of a table once an organization is deleted with everything it owns. */
  function Without<T>(table: Table<T>, org: nat): Table<T> {
    map pk | pk in table && table[pk].org != org :: table[pk]
  }

  lemma {:induction false} MinExists(keys: set<nat>, k: nat)
    requires k in keys
    ensures exists least :: least in keys && forall j :: j in keys ==> least <= j
  {
    if j :| j in keys && j < k {
      MinExists(keys, j);
    }
  }

  /** The first row of a query ordered by primary key. */
  function First(keys: set<nat>): (first: Option<nat>)
    ensures first.None? <==> keys == {}
    ensures first.Some? ==> first.value in keys && forall k :: k in keys ==> first.value <= k
  {
    if keys == {} then
      None
    else
      MinExists(keys, var any :| any in keys; any);
      var k :| k in keys && forall j :: j in keys ==> k <= j;
      Some(k)
  }

  /** Case folding of the ASCII letters, as `lower()` and `__iexact` apply it. */
  function FoldChar(c: char): char {
    if 'A' <= c <= 'Z' then c - 'A' + 'a' else c
  }

  function Fold(email: string): (folded: string)
    ensures |folded| == |email|
    ensures forall i :: 0 <= i < |email| ==> folded[i] == FoldChar(email[i])
  {
    seq(|email|, i requires 0 <= i < |email| => FoldChar(email[i]))
  }

  lemma FoldIdempotent(email: string)
    ensures Fold(Fold(email)) == Fold(email)
  {
    var once, twice := Fold(email), Fold(Fold(email));
    assert forall i :: 0 <= i < |email| ==> once[i] == twice[i];
  }

  /** The two are the same letter, one in upper and one in lower case. */
  predicate CasePair(a: char, b: char) {
    || ('A' <= a <= 'Z' && b as int == a as int + 32)
    || ('A' <= b <= 'Z' && a as int == b as int + 32)
  }

  /** Addresses fold alike exactly when they differ in the case of letters at most. */
  lemma FoldExactly(a: string, b: string)
    ensures Fold(a) == Fold(b) <==> |a| == |b| && forall i :: 0 <= i < |a| ==> a[i] == b[i] || CasePair(a[i], b[i])
  {
    if Fold(a) == Fold(b) {
      forall i | 0 <= i < |a|
        ensures a[i] == b[i] || CasePair(a[i], b[i])
      {
        assert Fold(a)[i] == Fold(b)[i];
      }
    }
  }

  /** A folded address has no upper-case letter, and is one with the address it folds. */
  lemma FoldIsLower(email: string)
    ensures forall i :: 0 <= i < |email| ==> !('A' <= Fold(email)[i] <= 'Z')
    ensures Fold(Fold(email)) == Fold(email)
  {
    FoldIdempotent(email);
  }
}
