/** Whose subscription a webhook event reaches: events are looked up in the rows of all
    organizations, so one organization's rows can stand in front of another's. */
module WebhookScope {
  import opened Models
  import opened Billing

  /** How an event leads to a subscription: 0 by its organization, 1 by its subscription id, 2 by
      its customer, 3 not at all. */
  function Tier(sub: Scoped<Subscription>, e: Event): nat {
    if e.org == Named(sub.org) then 0
    else if LookupId(e) != "" && sub.row.subscriptionId == LookupId(e) then 1
    else if e.customer != "" && sub.row.customerId == e.customer then 2
    else 3
  }

  /** Row q is looked up ahead of row p: on an earlier ground, or on the same and older. */
  predicate Ahead(subs: Table<Subscription>, e: Event, q: nat, p: nat)
    requires q in subs && p in subs
  {
    Tier(subs[q], e) < Tier(subs[p], e) || (Tier(subs[q], e) == Tier(subs[p], e) && q < p)
  }

  /** The row found is the one that no other is looked up ahead of. */
  lemma FindFirst(subs: Table<Subscription>, e: Event)
    ensures match Find(subs, e)
            case None => forall q :: q in subs ==> Tier(subs[q], e) == 3
            case Some(p) => p in subs && Tier(subs[p], e) < 3 && forall q :: q in subs && q != p ==> Ahead(subs, e, p, q)
  {
    assert forall q :: q in subs ==> (Tier(subs[q], e) == 0 <==> e.org.Named? && q in SubKeys(subs, e.org.org));
    assert forall q :: q in subs && LookupId(e) != "" && q in IdKeys(subs, LookupId(e)) ==> Tier(subs[q], e) <= 1;
    assert forall q :: q in subs && Tier(subs[q], e) == 1 ==> LookupId(e) != "" && q in IdKeys(subs, LookupId(e));
    assert forall q :: q in subs && e.customer != "" && q in CustomerKeys(subs, e.customer) ==> Tier(subs[q], e) <= 2;
    assert forall q :: q in subs && Tier(subs[q], e) == 2 ==> e.customer != "" && q in CustomerKeys(subs, e.customer);
  }

  /** Another organization's row is looked up ahead of the one an organization's own rows give. */
  predicate Shadowed(subs: Table<Subscription>, org: nat, e: Event) {
    var here := Find(Of(subs, org), e);
    here.Some? && here.value in subs && exists q :: q in subs && subs[q].org != org && Ahead(subs, e, q, here.value)
  }

  /** An event finds the same one of an organization's rows in the whole table as in the
      organization's rows alone, if any, exactly when no other organization's row is looked up
      ahead of it. */
  lemma FoundAlike(subs: Table<Subscription>, org: nat, e: Event)
    ensures (forall p :: p in subs && subs[p].org == org ==> (Find(subs, e) == Some(p) <==> Find(Of(subs, org), e) == Some(p)))
            <==> !Shadowed(subs, org, e)
  {
    var own := Of(subs, org);
    FindFirst(subs, e);
    FindFirst(own, e);
    assert forall p :: p in own <==> p in subs && subs[p].org == org;
    var all, here := Find(subs, e), Find(own, e);
    if here.Some? && all != here {
      assert all.Some? && Ahead(subs, e, all.value, here.value);
    }
  }

  /** What a shadowed event finds is not the organization's. */
  lemma ShadowedFinds(subs: Table<Subscription>, org: nat, e: Event)
    requires Shadowed(subs, org, e)
    ensures Find(subs, e).Some? && subs[Find(subs, e).value].org != org
  {
    FindFirst(subs, e);
    FindFirst(Of(subs, org), e);
    var here := Find(Of(subs, org), e).value;
    assert here in Of(subs, org);
    var all := Find(subs, e);
    assert subs[all.value].org == org ==> all.value in Of(subs, org);
    assert all.value in Of(subs, org) && all.value != here ==> Ahead(Of(subs, org), e, here, all.value);
  }

  /* ----- ids that belong to one organization each ----- */

  /** Which organization each Stripe customer and each Stripe subscription belongs to. */
  datatype Owners = Owners(customers: string -> nat, subscriptions: string -> nat)

  /** The event is about organization `org`, and carries no other organization's ids. */
  predicate About(owners: Owners, e: Event, org: nat) {
    && (e.org.Absent? || e.org == Named(org))
    && (e.customer != "" ==> owners.customers(e.customer) == org)
    && (LookupId(e) != "" ==> owners.subscriptions(LookupId(e)) == org)
    && (e.kind.CheckoutCompleted? && e.subscription != "" ==> owners.subscriptions(e.subscription) == org)
  }

  ghost predicate Proper(owners: Owners, e: Event) {
    e.kind.Unhandled? || Raises(e) || exists org :: About(owners, e, org)
  }

  /** Every organization's row carries its own ids only. */
  predicate OwnIds(owners: Owners, subs: Table<Subscription>) {
    forall pk :: pk in subs ==>
      && (subs[pk].row.customerId != "" ==> owners.customers(subs[pk].row.customerId) == subs[pk].org)
      && (subs[pk].row.subscriptionId != "" ==> owners.subscriptions(subs[pk].row.subscriptionId) == subs[pk].org)
  }

  lemma TierAbout(owners: Owners, subs: Table<Subscription>, e: Event, org: nat, p: nat)
    requires OwnIds(owners, subs) && About(owners, e, org) && p in subs && Tier(subs[p], e) < 3
    ensures subs[p].org == org
  {
  }

  /** While rows carry their own ids, an event about one organization is never shadowed. */
  lemma ProperNotShadowed(owners: Owners, subs: Table<Subscription>, e: Event, org: nat)
    requires OwnIds(owners, subs) && Proper(owners, e) && !e.kind.Unhandled? && !Raises(e)
    ensures !Shadowed(subs, org, e)
  {
    var o :| About(owners, e, o);
    FindFirst(Of(subs, org), e);
    if Shadowed(subs, org, e) {
      var p := Find(Of(subs, org), e).value;
      var q :| q in subs && subs[q].org != org && Ahead(subs, e, q, p);
      TierAbout(owners, subs, e, o, p);
      TierAbout(owners, subs, e, o, q);
    }
  }

  /** Handling proper events, rows keep carrying their own ids only. */
  lemma OwnIdsKept(owners: Owners, plans: seq<Plan>, subs: Table<Subscription>, e: Event)
    requires OwnIds(owners, subs) && Proper(owners, e)
    ensures OwnIds(owners, HandleEvent(plans, subs, e))
  {
    if !e.kind.Unhandled? && !Raises(e) {
      var o :| About(owners, e, o);
      FindFirst(subs, e);
      if Find(subs, e).Some? {
        TierAbout(owners, subs, e, o, Find(subs, e).value);
      }
    }
  }

  /* ----- what one row says ----- */

  /** The event names the subscription's organization, or leads to it in no way. */
  predicate Settled(sub: Scoped<Subscription>, e: Event) {
    e.kind.Unhandled? || Raises(e) || Tier(sub, e) in {0, 3}
  }

  predicate Concerns(subs: Table<Subscription>, e: Event, pk: nat) {
    !e.kind.Unhandled? && !Raises(e) && Find(subs, e) == Some(pk)
  }

  /** An organization has this one subscription. */
  predicate Has(subs: Table<Subscription>, pk: nat, sub: Scoped<Subscription>) {
    Of(subs, sub.org) == map[pk := sub]
  }

  lemma AloneOrShadowed(pk: nat, sub: Scoped<Subscription>, e: Event)
    requires pk > 0 && !Settled(sub, e)
    ensures exists one, two :: Has(one, pk, sub) && Has(two, pk, sub) && Concerns(one, e, pk) && !Concerns(two, e, pk)
  {
    var alone: Table<Subscription> := map[pk := sub];
    var rival := if e.org.Named? then e.org.org else sub.org + 1;
    var crowded := alone[0 := Scoped(rival, sub.row)];
    FindFirst(alone, e);
    FindFirst(crowded, e);
    assert Has(alone, pk, sub) && Has(crowded, pk, sub);
    assert pk in alone && 0 in crowded && pk in crowded;
    assert Tier(crowded[0], e) <= Tier(sub, e);
    assert Concerns(alone, e, pk) && !Concerns(crowded, e, pk);
  }

  /** Whether an event concerns a subscription can be told from that subscription alone,
      for all databases it may be in, exactly when the event is settled for it. */
  lemma SettledExactly(pk: nat, sub: Scoped<Subscription>, e: Event)
    requires pk > 0
    ensures Settled(sub, e) <==>
            forall one, two :: Has(one, pk, sub) && Has(two, pk, sub) ==> (Concerns(one, e, pk) <==> Concerns(two, e, pk))
  {
    if Settled(sub, e) {
      forall one, two | Has(one, pk, sub) && Has(two, pk, sub)
        ensures Concerns(one, e, pk) <==> Concerns(two, e, pk)
      {
        SettledDecides(one, pk, sub, e);
        SettledDecides(two, pk, sub, e);
      }
    } else {
      AloneOrShadowed(pk, sub, e);
    }
  }

  lemma SettledDecides(subs: Table<Subscription>, pk: nat, sub: Scoped<Subscription>, e: Event)
    requires Has(subs, pk, sub) && Settled(sub, e)
    ensures Concerns(subs, e, pk) <==> Tier(sub, e) == 0 && !e.kind.Unhandled? && !Raises(e)
  {
    FindFirst(subs, e);
    assert Of(subs, sub.org).Keys == {pk};
    assert pk in Of(subs, sub.org);
    if Find(subs, e).Some? && Tier(sub, e) == 0 {
      assert Tier(subs[Find(subs, e).value], e) == 0;
      assert Find(subs, e).value in Of(subs, sub.org);
    }
  }
}
