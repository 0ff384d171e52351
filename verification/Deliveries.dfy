/** Webhook deliveries over whole runs: repeats, conflicting payloads under one event id, and
    failures that are retried. */
module Deliveries {
  import opened Models
  import opened Billing
  import opened Requests

  /* ----- one event ----- */

  ghost predicate OfOrg(subs: Table<Subscription>, ref: OrgRef, pk: nat) {
    pk in subs && ref == Named(subs[pk].org)
  }

  ghost predicate OfId(subs: Table<Subscription>, id: string, pk: nat) {
    id != "" && pk in subs && subs[pk].row.subscriptionId == id
  }

  ghost predicate OfCustomer(subs: Table<Subscription>, customer: string, pk: nat) {
    customer != "" && pk in subs && subs[pk].row.customerId == customer
  }

  /** The subscription an event is about is the oldest one of the organization it names; failing
      that, of its subscription id; failing that, of its customer. */
  lemma FindOrder(subs: Table<Subscription>, e: Event)
    ensures var byOrg := exists pk :: OfOrg(subs, e.org, pk);
            var byId := exists pk :: OfId(subs, LookupId(e), pk);
            var byCustomer := exists pk :: OfCustomer(subs, e.customer, pk);
            match Find(subs, e)
            case None => !byOrg && !byId && !byCustomer
            case Some(pk) =>
              if byOrg then OfOrg(subs, e.org, pk) && forall q :: OfOrg(subs, e.org, q) ==> pk <= q
              else if byId then OfId(subs, LookupId(e), pk) && forall q :: OfId(subs, LookupId(e), q) ==> pk <= q
              else OfCustomer(subs, e.customer, pk) && forall q :: OfCustomer(subs, e.customer, q) ==> pk <= q
  {
    assert forall pk :: OfOrg(subs, e.org, pk) <==> e.org.Named? && pk in SubKeys(subs, e.org.org);
    assert forall pk :: OfId(subs, LookupId(e), pk) <==> LookupId(e) != "" && pk in IdKeys(subs, LookupId(e));
    assert forall pk :: OfCustomer(subs, e.customer, pk) <==>
                          e.customer != "" && pk in CustomerKeys(subs, e.customer);
  }

  function ActiveCodes(plans: seq<Plan>): set<string> {
    set p | p in plans && p.active :: p.code
  }

  /** Plans a subscription can be moved to: active ones, and Free. */
  predicate Reached(plans: seq<Plan>, before: string, after: string) {
    after == before || after in ActiveCodes(plans) || (after == FREE && FREE in Codes(plans))
  }

  /** An event changes at most the one subscription it is about, and never its organization; a
      plan moves only to an active plan, or to Free when the subscription is deleted. */
  lemma EventFrame(plans: seq<Plan>, subs: Table<Subscription>, e: Event)
    ensures var after := HandleEvent(plans, subs, e);
            && after.Keys == subs.Keys
            && forall pk :: pk in subs ==>
                 && after[pk].org == subs[pk].org
                 && (after[pk] != subs[pk] ==> Find(subs, e) == Some(pk))
                 && Reached(plans, subs[pk].row.plan, after[pk].row.plan)
                 && (after[pk].row.plan in ActiveCodes(plans) || after[pk].row.plan == subs[pk].row.plan
                     || e.kind.SubscriptionDeleted?)
  {
  }

  /** A completed checkout links the Stripe ids: from then on an event that names no organization
      finds the subscription by its subscription id, or else by its customer id, as long as no other
      row has that id. */
  lemma CheckoutLinks(plans: seq<Plan>, subs: Table<Subscription>, checkout: Event, e: Event, pk: nat)
    requires checkout.kind.CheckoutCompleted? && !Raises(checkout) && Find(subs, checkout) == Some(pk)
    requires e.org.Absent?
    ensures var after := HandleEvent(plans, subs, checkout);
            && after[pk].row.status == Active
            && (checkout.subscription != "" && LookupId(e) == checkout.subscription
                && (forall q :: OfId(subs, checkout.subscription, q) ==> q == pk)
                ==> Find(after, e) == Some(pk))
            && (checkout.customer != "" && e.customer == checkout.customer
                && (forall q :: OfCustomer(subs, checkout.customer, q) ==> q == pk)
                && (forall q :: q in after ==> LookupId(e) == "" || after[q].row.subscriptionId != LookupId(e))
                ==> Find(after, e) == Some(pk))
  {
    var after := HandleEvent(plans, subs, checkout);
    var row := after[pk].row;
    assert after == subs[pk := Scoped(subs[pk].org, row)];
    if checkout.subscription != "" && LookupId(e) == checkout.subscription
       && forall q :: OfId(subs, checkout.subscription, q) ==> q == pk {
      assert row.subscriptionId == LookupId(e);
      forall q | q in IdKeys(after, LookupId(e)) && q != pk
        ensures false
      {
        assert OfId(subs, checkout.subscription, q);
      }
      assert IdKeys(after, LookupId(e)) == {pk};
    }
    if checkout.customer != "" && e.customer == checkout.customer
       && forall q :: OfCustomer(subs, checkout.customer, q) ==> q == pk {
      assert row.customerId == e.customer;
      forall q | q in CustomerKeys(after, e.customer) && q != pk
        ensures false
      {
        assert OfCustomer(subs, checkout.customer, q);
      }
      assert CustomerKeys(after, e.customer) == {pk};
    }
  }

  /** A deleted subscription falls back to Free, keeps its customer, and its Stripe id finds it
      no more. */
  lemma DeletionUnlinks(plans: seq<Plan>, subs: Table<Subscription>, deleted: Event, e: Event, pk: nat)
    requires deleted.kind.SubscriptionDeleted? && !Raises(deleted) && Find(subs, deleted) == Some(pk)
    ensures var after := HandleEvent(plans, subs, deleted);
            && after[pk].row.status == Canceled && after[pk].row.customerId == subs[pk].row.customerId
            && (FreeSeeded(plans) ==> after[pk].row.plan == FREE)
            && FindById(after, LookupId(e)) != Some(pk)
  {
  }

  /** Events of a subscription lead to it by its Stripe id, whichever field of the payload carries
      that; a checkout never does. */
  lemma FoundById(subs: Table<Subscription>, e: Event, pk: nat)
    requires e.org.Absent? && pk in subs && subs[pk].row.subscriptionId != ""
    requires forall q :: q in subs && subs[q].row.subscriptionId == subs[pk].row.subscriptionId ==> q == pk
    ensures (e.kind.SubscriptionUpdated? || e.kind.SubscriptionDeleted?) && e.objectId == subs[pk].row.subscriptionId ==>
              Find(subs, e) == Some(pk)
    ensures e.kind.PaymentFailed? && e.subscription == subs[pk].row.subscriptionId ==> Find(subs, e) == Some(pk)
    ensures e.kind.CheckoutCompleted? && e.customer == "" ==> Find(subs, e) == None
  {
    assert IdKeys(subs, subs[pk].row.subscriptionId) == {pk};
  }

  /** The plan of a code, or of a price, among the active ones. */
  ghost predicate ActiveCode(plans: seq<Plan>, code: Option<string>) {
    exists p :: p in plans && p.active && code == Some(p.code)
  }

  ghost predicate ActivePrice(plans: seq<Plan>, price: string, code: string) {
    exists p :: p in plans && p.active && p.priceId == price && p.code == code
  }

  function SameOr(value: string, before: string): string {
    if value == "" then before else value
  }

  /** What a completed checkout leaves of the row it finds. */
  lemma CheckoutOutcome(plans: seq<Plan>, subs: Table<Subscription>, e: Event, pk: nat)
    requires e.kind.CheckoutCompleted? && !e.org.Malformed? && Find(subs, e) == Some(pk)
    ensures var before, after := subs[pk].row, HandleEvent(plans, subs, e)[pk].row;
            && after.status == Active && after.periodEnd == before.periodEnd
            && after.customerId == SameOr(e.customer, before.customerId)
            && after.subscriptionId == SameOr(e.subscription, before.subscriptionId)
            && after.plan == if ActiveCode(plans, e.planCode) then e.planCode.value else before.plan
  {
    var found := ActivePlanByCode(plans, e.planCode);
    if found.Some? {
      assert found.value in plans && found.value.active && e.planCode == Some(found.value.code);
    } else if e.planCode.Some? {
      assert forall p :: p in plans ==> !(p.code == e.planCode.value && p.active);
    }
  }

  /** What an update leaves of the row it finds. */
  lemma UpdateOutcome(plans: seq<Plan>, subs: Table<Subscription>, e: Event, pk: nat)
    requires e.kind.SubscriptionUpdated? && !e.org.Malformed? && Find(subs, e) == Some(pk)
    ensures var before, after := subs[pk].row, HandleEvent(plans, subs, e)[pk].row;
            && after.customerId == before.customerId
            && after.subscriptionId == SameOr(e.objectId, before.subscriptionId)
            && (e.status in {"active", "trialing"} ==> after.status == Active)
            && (e.status in {"past_due", "unpaid"} ==> after.status == PastDue)
            && (e.status in {"canceled", "incomplete_expired"} ==> after.status == Canceled)
            && (e.status == "incomplete" ==> after.status == Incomplete)
            && (e.status !in {"active", "trialing", "past_due", "unpaid", "canceled", "incomplete_expired", "incomplete"} ==>
                  after.status == before.status)
            && after.periodEnd == (if e.periodEnd in {None, Some(0)} then before.periodEnd else e.periodEnd)
            && (if e.price != "" && exists code :: ActivePrice(plans, e.price, code)
                then ActivePrice(plans, e.price, after.plan) else after.plan == before.plan)
  {
    var found := PlanForPrice(plans, e.price);
    if found.Some? {
      assert found.value in plans && found.value.active && found.value.priceId == e.price;
      assert ActivePrice(plans, e.price, found.value.code);
    } else if e.price != "" {
      assert forall p :: p in plans ==> !(p.priceId == e.price && p.active);
    }
  }

  /** What a deletion and a failed payment leave of the row they find. */
  lemma EndingOutcome(plans: seq<Plan>, subs: Table<Subscription>, e: Event, pk: nat)
    requires !e.org.Malformed? && Find(subs, e) == Some(pk)
    ensures var before, after := subs[pk].row, HandleEvent(plans, subs, e)[pk].row;
            && (e.kind.PaymentFailed? ==> after == before.(status := PastDue))
            && (e.kind.SubscriptionDeleted? ==>
                  after == before.(status := Canceled, subscriptionId := "",
                                   plan := if exists p :: p in plans && p.code == FREE then FREE else before.plan))
  {
    var found := PlanByCode(plans, FREE);
    if found.Some? {
      assert found.value in plans && found.value.code == FREE;
    } else {
      assert forall p :: p in plans ==> p.code != FREE;
    }
  }

  /* ----- what the sender is told ----- */

  /** A delivery is answered as processed exactly when it put its id into the ledger, as a duplicate
      exactly when the id was there before, and as failed exactly when it is there neither
      before nor after; then, and for a duplicate, nothing has changed. A new one fails exactly
      when handling it fails, as it does for an organization id that is none. */
  lemma AnswersExactly(s: State, e: Event, crash: bool)
    ensures var answer, t := Decide(s, Deliver(e, crash)).answer, Next(s, Deliver(e, crash));
            && answer in {Processed, AlreadyProcessed, ServerError}
            && (answer == Processed <==> e.id !in s.ledger && e.id in t.ledger)
            && (answer == AlreadyProcessed <==> e.id in s.ledger)
            && (answer == ServerError <==> e.id !in s.ledger && e.id !in t.ledger)
            && (answer == Processed ==>
                  t == s.(ledger := s.ledger + {e.id}, subs := HandleEvent(s.plans, s.subs, e)))
            && (answer != Processed ==> t == s)
            && (e.id !in s.ledger ==> (answer == ServerError <==> crash || (!e.kind.Unhandled? && e.org.Malformed?)))
  {
  }

  /** The i-th request of the run is a delivery of this event id, and answered so. */
  ghost predicate AnsweredAt(s: State, rs: seq<Request>, i: nat, id: string, answer: Answer) {
    i < |rs| && rs[i].Deliver? && rs[i].event.id == id && Decide(Run(s, rs[..i]), rs[i]).answer == answer
  }

  lemma LedgerStep(s: State, rs: seq<Request>, i: nat, id: string)
    requires i < |rs|
    ensures id in Run(s, rs[..i + 1]).ledger <==> id in Run(s, rs[..i]).ledger || AnsweredAt(s, rs, i, id, Processed)
    ensures AnsweredAt(s, rs, i, id, Processed) ==> id !in Run(s, rs[..i]).ledger
    ensures rs[i].Deliver? && !AnsweredAt(s, rs, i, rs[i].event.id, Processed) ==> Run(s, rs[..i + 1]) == Run(s, rs[..i])
  {
    var t := Run(s, rs[..i]);
    assert rs[..i + 1] == rs[..i] + [rs[i]];
    RunAppend(s, rs[..i], rs[i]);
    if rs[i].Deliver? {
      AnswersExactly(t, rs[i].event, rs[i].crash);
    } else {
      LedgerKept(t, rs[i]);
    }
  }

  lemma LedgerKept(s: State, r: Request)
    requires !r.Deliver?
    ensures Next(s, r).ledger == s.ledger
  {
    OnlyDeliveriesRecord(s, r);
    WriteKeepsLedger(s, Decide(s, r).change);
  }

  lemma WriteKeepsLedger(s: State, c: Change)
    requires !c.Recorded?
    ensures Apply(s, c).ledger == s.ledger
  {
  }

  /** An id is in the ledger exactly when it was there from the start or a delivery of it has been
      answered as processed since. */
  lemma {:induction false} LedgerExactly(s: State, rs: seq<Request>, n: nat, id: string)
    requires n <= |rs|
    ensures id in Run(s, rs[..n]).ledger <==> id in s.ledger || exists j: nat :: j < n && AnsweredAt(s, rs, j, id, Processed)
  {
    if n > 0 {
      LedgerExactly(s, rs, n - 1, id);
      LedgerStep(s, rs, n - 1, id);
    }
  }

  /** No id is answered as processed twice, nor one that was in the ledger from the start. */
  lemma ProcessedOnce(s: State, rs: seq<Request>, i: nat, j: nat, id: string)
    requires AnsweredAt(s, rs, i, id, Processed) && AnsweredAt(s, rs, j, id, Processed)
    ensures i == j && id !in s.ledger
  {
    LedgerExactly(s, rs, i, id);
    LedgerExactly(s, rs, j, id);
    LedgerStep(s, rs, i, id);
    LedgerStep(s, rs, j, id);
  }

  /** In any run, a delivery that is acknowledged, as processed or as a duplicate, has its id in the
      ledger for good, and its event was handled by exactly one delivery or before the run; one
      answered as failed has left everything as it was, to be delivered again. */
  lemma Acknowledged(s: State, rs: seq<Request>, i: nat)
    requires i < |rs| && rs[i].Deliver?
    ensures var id, answer := rs[i].event.id, Decide(Run(s, rs[..i]), rs[i]).answer;
            && answer in {Processed, AlreadyProcessed, ServerError}
            && (answer != ServerError ==>
                  && id in Run(s, rs).ledger
                  && (id in s.ledger || exists j: nat :: j <= i && AnsweredAt(s, rs, j, id, Processed)))
            && (answer == ServerError ==> Run(s, rs[..i + 1]) == Run(s, rs[..i]))
  {
    var id := rs[i].event.id;
    AnswersExactly(Run(s, rs[..i]), rs[i].event, rs[i].crash);
    LedgerStep(s, rs, i, id);
    LedgerExactly(s, rs, i + 1, id);
    LedgerExactly(s, rs, |rs|, id);
    assert rs[..|rs|] == rs;
  }

  /* ----- runs of deliveries ----- */

  predicate AllDeliveries(ds: seq<Request>) {
    forall d :: d in ds ==> d.Deliver?
  }

  /** A delivery is handled without failing. */
  predicate Succeeds(d: Request) {
    d.Deliver? && !d.crash && !Raises(d.event)
  }

  /** The i-th delivery is the first successful one of an event id the ledger does not hold. */
  predicate IsFirst(ledger: set<string>, ds: seq<Request>, i: nat)
    requires i < |ds| && AllDeliveries(ds)
  {
    && Succeeds(ds[i]) && ds[i].event.id !in ledger
    && forall j: nat :: j < i && Succeeds(ds[j]) ==> ds[j].event.id != ds[i].event.id
  }

  /** The events of the first successful deliveries among the first n, in order. */
  function Effective(ledger: set<string>, ds: seq<Request>, n: nat): seq<Event>
    requires n <= |ds| && AllDeliveries(ds)
  {
    if n == 0 then []
    else Effective(ledger, ds, n - 1) + if IsFirst(ledger, ds, n - 1) then [ds[n - 1].event] else []
  }

  function FoldEvents(plans: seq<Plan>, subs: Table<Subscription>, events: seq<Event>): Table<Subscription> {
    if events == [] then subs
    else HandleEvent(plans, FoldEvents(plans, subs, events[..|events| - 1]), events[|events| - 1])
  }

  function SuccessIds(ds: seq<Request>, n: nat): set<string>
    requires n <= |ds| && AllDeliveries(ds)
  {
    set i: nat | i < n && Succeeds(ds[i]) :: ds[i].event.id
  }

  lemma {:induction false} RunAppend(s: State, rs: seq<Request>, r: Request)
    ensures Run(s, rs + [r]) == Next(Run(s, rs), r)
    decreases |rs|
  {
    if rs == [] {
      assert rs + [r] == [r];
      assert Run(s, [r]) == Run(Next(s, r), [r][1..]);
    } else {
      assert (rs + [r])[0] == rs[0] && (rs + [r])[1..] == rs[1..] + [r];
      RunAppend(Next(s, rs[0]), rs[1..], r);
    }
  }

  lemma SuccessIdsStep(ds: seq<Request>, n: nat)
    requires 0 < n <= |ds| && AllDeliveries(ds)
    ensures SuccessIds(ds, n) == SuccessIds(ds, n - 1) + if Succeeds(ds[n - 1]) then {ds[n - 1].event.id} else {}
  {
  }

  /** The next delivery is a first one exactly when it would be handled and not yet recorded. */
  lemma IsFirstNext(ledger: set<string>, ds: seq<Request>, i: nat)
    requires i < |ds| && AllDeliveries(ds)
    ensures IsFirst(ledger, ds, i) <==> Succeeds(ds[i]) && ds[i].event.id !in ledger + SuccessIds(ds, i)
  {
  }

  lemma EffectiveStep(plans: seq<Plan>, subs: Table<Subscription>, ledger: set<string>, ds: seq<Request>, n: nat)
    requires 0 < n <= |ds| && AllDeliveries(ds)
    ensures var before := FoldEvents(plans, subs, Effective(ledger, ds, n - 1));
            FoldEvents(plans, subs, Effective(ledger, ds, n)) ==
            if IsFirst(ledger, ds, n - 1) then HandleEvent(plans, before, ds[n - 1].event) else before
  {
    var before, after := Effective(ledger, ds, n - 1), Effective(ledger, ds, n);
    if IsFirst(ledger, ds, n - 1) {
      assert after[..|after| - 1] == before && after[|after| - 1] == ds[n - 1].event;
    } else {
      assert after == before;
    }
  }

  lemma DeliverNext(s: State, d: Request)
    requires d.Deliver?
    ensures Next(s, d) == if Succeeds(d) && d.event.id !in s.ledger
                          then s.(ledger := s.ledger + {d.event.id}, subs := HandleEvent(s.plans, s.subs, d.event))
                          else s
  {
  }

  /** The database after the first n deliveries, by the fold. */
  function Folded(s: State, ds: seq<Request>, n: nat): State
    requires n <= |ds| && AllDeliveries(ds)
  {
    s.(ledger := s.ledger + SuccessIds(ds, n),
       subs := FoldEvents(s.plans, s.subs, Effective(s.ledger, ds, n)))
  }

  lemma FoldedStep(s: State, ds: seq<Request>, n: nat)
    requires 0 < n <= |ds| && AllDeliveries(ds)
    ensures Next(Folded(s, ds, n - 1), ds[n - 1]) == Folded(s, ds, n)
  {
    var d := ds[n - 1];
    DeliverNext(Folded(s, ds, n - 1), d);
    SuccessIdsStep(ds, n);
    IsFirstNext(s.ledger, ds, n - 1);
    EffectiveStep(s.plans, s.subs, s.ledger, ds, n);
    if IsFirst(s.ledger, ds, n - 1) {
      assert s.ledger + SuccessIds(ds, n) == s.ledger + SuccessIds(ds, n - 1) + {d.event.id};
    } else {
      assert s.ledger + SuccessIds(ds, n) == s.ledger + SuccessIds(ds, n - 1);
    }
  }

  lemma {:induction false} FoldPrefix(s: State, ds: seq<Request>, n: nat)
    requires n <= |ds| && AllDeliveries(ds)
    ensures Run(s, ds[..n]) == Folded(s, ds, n)
  {
    if n == 0 {
      assert s.ledger + SuccessIds(ds, 0) == s.ledger;
    } else {
      FoldPrefix(s, ds, n - 1);
      assert ds[..n] == ds[..n - 1] + [ds[n - 1]];
      RunAppend(s, ds[..n - 1], ds[n - 1]);
      FoldedStep(s, ds, n);
    }
  }

  /** After any list of deliveries the subscriptions are those that handling the first
      successful delivery of each event id, in order, gives; failures and repeats, whatever
      payload they carry, leave no trace, and nothing else in the database changes. */
  lemma DeliveryFold(s: State, ds: seq<Request>)
    requires AllDeliveries(ds)
    ensures Run(s, ds) == s.(ledger := s.ledger + SuccessIds(ds, |ds|),
                             subs := FoldEvents(s.plans, s.subs, Effective(s.ledger, ds, |ds|)))
  {
    FoldPrefix(s, ds, |ds|);
    assert ds[..|ds|] == ds;
  }

  /** The events are of different ids, none recorded before. */
  ghost predicate Distinct(ledger: set<string>, es: seq<Event>) {
    && (forall i, j :: 0 <= i < j < |es| ==> es[i].id != es[j].id)
    && (forall i :: 0 <= i < |es| ==> es[i].id !in ledger)
  }

  function EventIds(es: seq<Event>): set<string> {
    set i | 0 <= i < |es| :: es[i].id
  }

  lemma DistinctNext(ledger: set<string>, es: seq<Event>, e: Event)
    requires Distinct(ledger, es) && e.id !in ledger + EventIds(es)
    ensures Distinct(ledger, es + [e])
  {
    assert forall i :: 0 <= i < |es| ==> es[i].id in EventIds(es);
  }

  lemma EventIdsNext(es: seq<Event>, e: Event)
    ensures EventIds(es + [e]) == EventIds(es) + {e.id}
  {
    var longer := es + [e];
    assert longer[|es|] == e && forall i :: 0 <= i < |es| ==> longer[i] == es[i];
    forall id | id in EventIds(es)
      ensures id in EventIds(longer)
    {
      var i :| 0 <= i < |es| && es[i].id == id;
      assert longer[i].id == id;
    }
  }

  /** No two of the events handled share an id, none was recorded before, and with those that were
      they cover every id that was delivered successfully. */
  lemma {:induction false} EffectiveDistinct(ledger: set<string>, ds: seq<Request>, n: nat)
    requires n <= |ds| && AllDeliveries(ds)
    ensures var es := Effective(ledger, ds, n);
            Distinct(ledger, es) && ledger + EventIds(es) == ledger + SuccessIds(ds, n)
  {
    if n > 0 {
      EffectiveDistinct(ledger, ds, n - 1);
      var before := Effective(ledger, ds, n - 1);
      SuccessIdsStep(ds, n);
      IsFirstNext(ledger, ds, n - 1);
      if IsFirst(ledger, ds, n - 1) {
        assert ds[n - 1].event.id !in ledger + EventIds(before);
        DistinctNext(ledger, before, ds[n - 1].event);
        EventIdsNext(before, ds[n - 1].event);
      } else {
        assert Effective(ledger, ds, n) == before;
      }
    }
  }

  /** Over any list of deliveries no subscription is created, deleted or moved to another
      organization, and plans only move to active plans or to Free. */
  lemma {:induction false} FoldFrame(plans: seq<Plan>, subs: Table<Subscription>, events: seq<Event>)
    ensures var after := FoldEvents(plans, subs, events);
            && after.Keys == subs.Keys
            && forall pk :: pk in subs ==>
                 after[pk].org == subs[pk].org && Reached(plans, subs[pk].row.plan, after[pk].row.plan)
  {
    if events != [] {
      var init := events[..|events| - 1];
      FoldFrame(plans, subs, init);
      EventFrame(plans, FoldEvents(plans, subs, init), events[|events| - 1]);
    }
  }
}
