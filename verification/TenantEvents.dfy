/** Isolation with other tenants' webhook deliveries left out as well: when no Stripe id and no
    event id is shared, a delivery about another organization leaves nothing but its id. */
module TenantEvents {
  import opened Models
  import opened Billing
  import opened Requests
  import opened Invariants
  import opened WebhookScope
  import opened Isolation

  /** An API request, or a delivery about the organization. */
  predicate Mine(owners: Owners, org: nat, r: Request) {
    r.Deliver? ==> About(owners, r.event, org)
  }

  function MyPart(owners: Owners, org: nat, rs: seq<Request>): seq<Request> {
    if rs == [] then []
    else (if Mine(owners, org, rs[0]) then [rs[0]] else []) + MyPart(owners, org, rs[1..])
  }

  /** The answers among these, one for each request, that go to the organization's own part. */
  function MyAnswers(owners: Owners, org: nat, rs: seq<Request>, answers: seq<Answer>): seq<Answer>
    requires |answers| == |rs|
  {
    if rs == [] then []
    else (if Mine(owners, org, rs[0]) then [answers[0]] else []) + MyAnswers(owners, org, rs[1..], answers[1..])
  }

  /** No delivery about the organization shares its event id with one that is not. */
  ghost predicate IdsApart(owners: Owners, org: nat, rs: seq<Request>) {
    forall r, q | r in rs && q in rs && r.Deliver? && q.Deliver? && Mine(owners, org, r) && !Mine(owners, org, q) ::
      r.event.id != q.event.id
  }

  /** The two ledgers hold the same of the ids that deliveries about the organization bring. */
  ghost predicate Agree(owners: Owners, org: nat, rs: seq<Request>, one: set<string>, two: set<string>) {
    forall r | r in rs && r.Deliver? && Mine(owners, org, r) :: r.event.id in one <==> r.event.id in two
  }

  ghost predicate NoneCreates(rs: seq<Request>) {
    forall r :: r in rs ==> !r.CreateOrg?
  }

  predicate OnlyOrg(subs: Table<Subscription>, org: nat) {
    forall pk :: pk in subs ==> subs[pk].org == org
  }

  lemma OnlyOrgStays(s: State, org: nat, r: Request)
    requires OnlyOrg(s.subs, org) && !r.CreateOrg?
    ensures OnlyOrg(Next(s, r).subs, org)
  {
    NoInsert(s, r);
    if r.Deliver? {
      FindFirst(s.subs, r.event);
    } else {
      OnlyDeliveriesRecord(s, r);
      OnlyOrgWrite(s, org, Decide(s, r).change);
    }
  }

  lemma OnlyOrgWrite(s: State, org: nat, c: Change)
    requires OnlyOrg(s.subs, org) && !c.OrgInserted? && !c.Recorded?
    ensures OnlyOrg(Apply(s, c).subs, org)
  {
  }

  lemma NoInsert(s: State, r: Request)
    requires !r.CreateOrg?
    ensures !Decide(s, r).change.OrgInserted?
  {
  }

  /** A delivery about another organization finds no row, and leaves only its id. */
  lemma ForeignDelivery(owners: Owners, s: State, org: nat, r: Request)
    requires OnlyOrg(s.subs, org) && OwnIds(owners, s.subs)
    requires r.Deliver? && Proper(owners, r.event) && !Mine(owners, org, r)
    ensures Next(s, r) == s.(ledger := Next(s, r).ledger)
    ensures s.ledger <= Next(s, r).ledger <= s.ledger + {r.event.id}
  {
    var e := r.event;
    if !e.kind.Unhandled? && !Raises(e) {
      var o :| About(owners, e, o);
      FindFirst(s.subs, e);
      if Find(s.subs, e).Some? {
        TierAbout(owners, s.subs, e, o, Find(s.subs, e).value);
      }
    }
  }

  /** An API request does not read the ledger. */
  lemma LedgerUnread(s: State, ledger: set<string>, r: Request)
    requires !r.Deliver?
    ensures Decide(s.(ledger := ledger), r) == Decide(s, r)
    ensures Next(s.(ledger := ledger), r) == Next(s, r).(ledger := ledger) && Next(s, r).ledger == s.ledger
  {
    OnlyDeliveriesRecord(s, r);
    DecisionUnread(s, ledger, r);
    WriteUnread(s, ledger, Decide(s, r).change);
  }

  lemma DecisionUnread(s: State, ledger: set<string>, r: Request)
    requires !r.Deliver?
    ensures Decide(s.(ledger := ledger), r) == Decide(s, r)
  {
  }

  lemma WriteUnread(s: State, ledger: set<string>, c: Change)
    requires !c.Recorded?
    ensures Apply(s.(ledger := ledger), c) == Apply(s, c).(ledger := ledger) && Apply(s, c).ledger == s.ledger
  {
    if c.OrgInserted? {
      InsertUnread(s, ledger, c.pk, c.actor, c.name, c.slug);
    } else if c.OrgDropped? {
      DropUnread(s, ledger, c.org);
    }
  }

  lemma InsertUnread(s: State, ledger: set<string>, pk: nat, actor: nat, name: string, slug: string)
    ensures InsertOrg(s.(ledger := ledger), pk, actor, name, slug) == InsertOrg(s, pk, actor, name, slug).(ledger := ledger)
  {
  }

  lemma DropUnread(s: State, ledger: set<string>, org: nat)
    ensures DropOrg(s.(ledger := ledger), org) == DropOrg(s, org).(ledger := ledger)
  {
  }

  /** A delivery reads of the ledger only its own id. */
  lemma OwnIdRead(s: State, ledger: set<string>, r: Request)
    requires r.Deliver? && (r.event.id in s.ledger <==> r.event.id in ledger)
    ensures Decide(s.(ledger := ledger), r) == Decide(s, r)
    ensures var t, u := Next(s, r), Next(s.(ledger := ledger), r);
            && u == t.(ledger := u.ledger)
            && forall id :: (id in t.ledger <==> id in s.ledger || (id == r.event.id && Decide(s, r).change.Recorded?))
                            && (id in u.ledger <==> id in ledger || (id == r.event.id && Decide(s, r).change.Recorded?))
  {
  }

  /** In a database of the organization alone, other organizations' deliveries can be left out. */
  lemma {:induction false} DropForeign(owners: Owners, s: State, ledger: set<string>, org: nat, rs: seq<Request>)
    requires OnlyOrg(s.subs, org) && OwnIds(owners, s.subs) && ProperRun(owners, rs) && NoneCreates(rs)
    requires IdsApart(owners, org, rs) && Agree(owners, org, rs, s.ledger, ledger)
    ensures var t := Run(s.(ledger := ledger), MyPart(owners, org, rs)); t == Run(s, rs).(ledger := t.ledger)
    ensures |Answers(s, rs)| == |rs|
    ensures Answers(s.(ledger := ledger), MyPart(owners, org, rs)) == MyAnswers(owners, org, rs, Answers(s, rs))
    decreases |rs|
  {
    if rs != [] {
      var r, rest := rs[0], rs[1..];
      assert forall q :: q in rest ==> q in rs;
      OnlyOrgStays(s, org, r);
      OwnIdsStep(owners, s, r);
      var t, d := Next(s, r), s.(ledger := ledger);
      if Mine(owners, org, r) {
        var u := Next(d, r);
        if r.Deliver? {
          OwnIdRead(s, ledger, r);
        } else {
          LedgerUnread(s, ledger, r);
        }
        assert u == t.(ledger := u.ledger);
        DropForeign(owners, t, u.ledger, org, rest);
        MyFirst(owners, d, org, rs);
      } else {
        ForeignDelivery(owners, s, org, r);
        assert t.(ledger := ledger) == d;
        DropForeign(owners, t, ledger, org, rest);
      }
      KeptAnswers(owners, org, rs, Answers(s, rs));
      assert Answers(s, rs)[0] == Decide(s, r).answer && Answers(s, rs)[1..] == Answers(t, rest);
    }
  }

  lemma MyFirst(owners: Owners, s: State, org: nat, rs: seq<Request>)
    requires rs != [] && Mine(owners, org, rs[0])
    ensures var mine, rest := MyPart(owners, org, rs), MyPart(owners, org, rs[1..]);
            && Run(s, mine) == Run(Next(s, rs[0]), rest)
            && Answers(s, mine) == [Decide(s, rs[0]).answer] + Answers(Next(s, rs[0]), rest)
  {
    var mine := MyPart(owners, org, rs);
    assert mine[0] == rs[0] && mine[1..] == MyPart(owners, org, rs[1..]);
  }

  lemma KeptAnswers(owners: Owners, org: nat, rs: seq<Request>, answers: seq<Answer>)
    requires rs != [] && |answers| == |rs|
    ensures var rest := MyAnswers(owners, org, rs[1..], answers[1..]);
            MyAnswers(owners, org, rs, answers) == if Mine(owners, org, rs[0]) then [answers[0]] + rest else rest
    ensures !Mine(owners, org, rs[0]) ==> MyPart(owners, org, rs) == MyPart(owners, org, rs[1..])
  {
  }

  lemma {:induction false} OwnCreatesNothing(s: State, org: nat, rs: seq<Request>)
    ensures NoneCreates(OwnPart(s, org, rs))
    decreases |rs|
  {
    if rs != [] {
      OwnCreatesNothing(Next(s, rs[0]), org, rs[1..]);
    }
  }

  /** When no event carries ids of two organizations, and no event id is shared between deliveries
      about the organization and others, all other tenants' requests and deliveries can be left
      out: alone with its own requests and the deliveries about it, the organization ends with
      the same rows and gets the same answers. Only the ledger of event ids differs. */
  lemma AloneWithOwnEvents(owners: Owners, s: State, bound: nat, org: nat, rs: seq<Request>)
    requires Inv(s) && Below(s, bound) && Paced(bound, rs) && org < bound
    requires OwnIds(owners, s.subs) && ProperRun(owners, rs) && IdsApart(owners, org, rs)
    ensures var own := OwnPart(s, org, rs);
            var alone := Run(Confine(s, org), MyPart(owners, org, own));
            && Confine(Run(s, rs), org) == alone.(ledger := Run(s, rs).ledger)
            && |OwnAnswers(s, org, rs)| == |own|
            && MyAnswers(owners, org, own, OwnAnswers(s, org, rs)) == Answers(Confine(s, org), MyPart(owners, org, own))
  {
    var own, c := OwnPart(s, org, rs), Confine(s, org);
    OwnPartOf(s, org, rs);
    ProperIsClear(owners, s, org, rs);
    TenantAlone(s, bound, org, rs);
    OwnCreatesNothing(s, org, rs);
    DropForeign(owners, c, c.ledger, org, own);
    assert c.(ledger := c.ledger) == c;
  }
}
