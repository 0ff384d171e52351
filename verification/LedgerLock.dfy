/** Webhook deliveries interleaved statement by statement: each inserts its event id into the
    ledger, waiting while another uncommitted delivery has inserted the same id; its handler
    reads a subscription and, later, saves it; and ledger and subscription commit or roll back
    together. */
module LedgerLock {
  import opened Models
  import opened Billing
  import opened WebhookScope
  import Deliveries
  import Requests

  /** How far a delivery has come: it has inserted its event id; its handler has read the row at
      `key`, if it found one, as `seen`; it has saved that row. */
  datatype Txn =
    | Arrived(event: Event)
    | Recorded(event: Event)
    | Read(event: Event, key: Option<nat>, seen: Subscription)
    | Saved(event: Event, key: Option<nat>, seen: Subscription)

  datatype Reply = Processed | Duplicate | Failed

  /** The committed ledger and subscriptions, the deliveries in flight, the answers so far, and
      the events whose effects have committed, in order. */
  datatype Db = Db(plans: seq<Plan>, ledger: set<string>, subs: Table<Subscription>,
                   txns: map<nat, Txn>, replies: map<nat, Reply>, effects: seq<Event>)

  datatype Step =
    | Arrive(txn: nat, event: Event)
    | Record(txn: nat)
    | Fetch(txn: nat)
    | Save(txn: nat)
    | Commit(txn: nat)
    | Fail(txn: nat)

  /** Another delivery has inserted this id and has not committed or rolled back. */
  predicate Blocked(db: Db, t: nat, id: string) {
    exists u :: u in db.txns && u != t && !db.txns[u].Arrived? && db.txns[u].event.id == id
  }

  /** Another delivery has saved this row and has not committed or rolled back. */
  predicate RowLocked(db: Db, t: nat, key: Option<nat>) {
    exists u :: u in db.txns && u != t && db.txns[u].Saved? && key.Some? && db.txns[u].key == key
  }

  /** What the handler of an event looks up. */
  function Lookup(subs: Table<Subscription>, e: Event): Option<nat> {
    if e.kind.Unhandled? || Raises(e) then None else Find(subs, e)
  }

  function Fetched(db: Db, e: Event): Txn {
    match Lookup(db.subs, e)
    case None => Read(e, None, Subscription("", "", "", Active, None))
    case Some(key) => Read(e, Some(key), db.subs[key].row)
  }

  /** Every field is saved as computed from the row that was read, but a payment failure saves the
      status alone. */
  function SavedRow(plans: seq<Plan>, x: Txn, current: Subscription): Subscription
    requires x.Saved?
  {
    if x.event.kind.PaymentFailed? then current.(status := PastDue) else Updated(plans, x.seen, x.event)
  }

  function SavedRows(db: Db, x: Txn): Table<Subscription>
    requires x.Saved?
  {
    if x.key.Some? && x.key.value in db.subs then
      var row := db.subs[x.key.value];
      db.subs[x.key.value := Scoped(row.org, SavedRow(db.plans, x, row.row))]
    else db.subs
  }

  function Move(db: Db, t: nat, to: Txn): Db {
    db.(txns := db.txns[t := to])
  }

  function Answer(db: Db, t: nat, reply: Reply): Db {
    db.(txns := db.txns - {t}, replies := db.replies[t := reply])
  }

  /** One statement. A delivery that must wait does nothing. */
  function Apply(db: Db, s: Step): Db {
    match s
    case Arrive(t, event) => if t in db.txns || t in db.replies then db else Move(db, t, Arrived(event))
    case Record(t) =>
      if t in db.txns && db.txns[t].Arrived? then
        var e := db.txns[t].event;
        if e.id in db.ledger then Answer(db, t, Duplicate)
        else if Blocked(db, t, e.id) then db
        else Move(db, t, Recorded(e))
      else db
    case Fetch(t) =>
      if t in db.txns && db.txns[t].Recorded? then
        if Raises(db.txns[t].event) then Answer(db, t, Failed) else Move(db, t, Fetched(db, db.txns[t].event))
      else db
    case Save(t) =>
      if t in db.txns && db.txns[t].Read? && !RowLocked(db, t, db.txns[t].key) then
        Move(db, t, Saved(db.txns[t].event, db.txns[t].key, db.txns[t].seen))
      else db
    case Commit(t) =>
      if t in db.txns && db.txns[t].Saved? then
        var x := db.txns[t];
        Answer(db, t, Processed).(ledger := db.ledger + {x.event.id}, subs := SavedRows(db, x),
                                  effects := db.effects + [x.event])
      else db
    case Fail(t) => if t in db.txns then Answer(db, t, Failed) else db
  }

  function Run(db: Db, ss: seq<Step>): Db {
    if ss == [] then db else Apply(Run(db, ss[..|ss| - 1]), ss[|ss| - 1])
  }

  predicate Idle(db: Db) {
    db.txns == map[] && db.replies == map[] && db.effects == []
  }

  /* ----- exactly once, under every interleaving ----- */

  /** Of the deliveries of one event id, at most one is past the ledger insert, and none once the
      id is in the committed ledger. */
  ghost predicate OneRecorder(db: Db) {
    && (forall t, u | t in db.txns && u in db.txns && !db.txns[t].Arrived? && !db.txns[u].Arrived?
                      && db.txns[t].event.id == db.txns[u].event.id :: t == u)
    && (forall t :: t in db.txns && !db.txns[t].Arrived? ==> db.txns[t].event.id !in db.ledger)
  }

  function Ids(events: seq<Event>): set<string> {
    set e | e in events :: e.id
  }

  /** Effects committed once per id, and the ledger holds exactly their ids beside those it
      started with. */
  ghost predicate Accounted(start: Db, db: Db) {
    && (forall i, j :: 0 <= i < j < |db.effects| ==> db.effects[i].id != db.effects[j].id)
    && (forall e :: e in db.effects ==> e.id !in start.ledger)
    && db.ledger == start.ledger + Ids(db.effects)
  }

  lemma OneRecorderKept(db: Db, s: Step)
    requires OneRecorder(db)
    ensures var after := Apply(db, s); OneRecorder(after)
  {
  }

  lemma IdsAppend(events: seq<Event>, e: Event)
    ensures Ids(events + [e]) == Ids(events) + {e.id}
    ensures e.id !in Ids(events) ==> forall x :: x in events ==> x.id != e.id
  {
    forall x | x in events
      ensures x.id in Ids(events)
    {
    }
  }

  lemma CommitAccounted(start: Db, db: Db, t: nat)
    requires OneRecorder(db) && Accounted(start, db) && t in db.txns && db.txns[t].Saved?
    ensures var after := Apply(db, Commit(t)); Accounted(start, after)
  {
    var e := db.txns[t].event;
    IdsAppend(db.effects, e);
    assert e.id !in db.ledger;
    assert db.ledger + {e.id} == start.ledger + Ids(db.effects + [e]);
  }

  /** Ledger, subscriptions and effects change only when a delivery commits. */
  lemma OnlyCommits(db: Db, s: Step)
    requires !(s.Commit? && s.txn in db.txns && db.txns[s.txn].Saved?)
    ensures var after := Apply(db, s);
            after.ledger == db.ledger && after.subs == db.subs && after.effects == db.effects && after.plans == db.plans
  {
  }

  lemma {:induction false} RunKeeps(db: Db, ss: seq<Step>)
    requires Idle(db)
    ensures var d := Run(db, ss); OneRecorder(d) && Accounted(db, d)
  {
    if ss != [] {
      var init, s := ss[..|ss| - 1], ss[|ss| - 1];
      RunKeeps(db, init);
      var d := Run(db, init);
      OneRecorderKept(d, s);
      if s.Commit? && s.txn in d.txns && d.txns[s.txn].Saved? {
        CommitAccounted(db, d, s.txn);
      } else {
        OnlyCommits(d, s);
      }
    }
  }

  /** Exactly once: under any interleaving, with any number of concurrent duplicates, failures and
      other events, the effects of an event id commit at most once, and an id is in the
      committed ledger exactly when its effects are, or it was there before. */
  lemma ExactlyOnce(db: Db, ss: seq<Step>)
    requires Idle(db)
    ensures var d := Run(db, ss);
            && (forall i, j :: 0 <= i < j < |d.effects| ==> d.effects[i].id != d.effects[j].id)
            && (forall id :: id in d.ledger <==> id in db.ledger || exists e :: e in d.effects && e.id == id)
  {
    RunKeeps(db, ss);
    assert forall id :: id in Ids(Run(db, ss).effects) <==> exists e :: e in Run(db, ss).effects && e.id == id;
  }

  /** A duplicate never gives up while the first delivery may still fail: it is answered as a
      duplicate only when the effects of its event id have committed. */
  lemma DuplicateMeansDone(db: Db, s: Step, t: nat)
    requires t in db.txns && t in Apply(db, s).replies && t !in db.replies
    ensures Apply(db, s).replies[t] == Duplicate ==> db.txns[t].event.id in db.ledger
    ensures Apply(db, s).replies[t] == Processed ==>
              db.txns[t].event.id in Apply(db, s).ledger && db.txns[t].event in Apply(db, s).effects
    ensures Apply(db, s).replies[t] == Failed ==> Apply(db, s).ledger == db.ledger && Apply(db, s).subs == db.subs
  {
  }

  /** No two deliveries in flight have saved the same row. */
  ghost predicate OneSaver(db: Db) {
    forall t, u | t in db.txns && u in db.txns && db.txns[t].Saved? && db.txns[u].Saved?
                  && db.txns[t].key.Some? && db.txns[t].key == db.txns[u].key :: t == u
  }

  lemma OneSaverKept(db: Db, s: Step)
    requires OneSaver(db)
    ensures var after := Apply(db, s); OneSaver(after)
  {
  }

  /** Saves of one row wait for each other's commits, in every run. */
  lemma {:induction false} SavesWait(db: Db, ss: seq<Step>)
    requires Idle(db)
    ensures OneSaver(Run(db, ss))
  {
    if ss != [] {
      SavesWait(db, ss[..|ss| - 1]);
      OneSaverKept(Run(db, ss[..|ss| - 1]), ss[|ss| - 1]);
    }
  }

  /** The replies are the answers of the delivery request on the committed rows: a duplicate's, a
      failed handling's, and, for a harmless commit, a processed one's, with the same rows after. */
  lemma RepliesAreAnswers(db: Db, s: Step, t: nat, atomic: State)
    requires OneRecorder(db) && t in db.txns && t !in db.replies && t in Apply(db, s).replies
    requires atomic.ledger == db.ledger && atomic.subs == db.subs && atomic.plans == db.plans
    ensures var e, after := db.txns[t].event, Apply(db, s);
            match after.replies[t]
            case Duplicate => Requests.Decide(atomic, Requests.Deliver(e, false)).answer == Requests.AlreadyProcessed
            case Processed =>
              && Commits(db, s) && db.txns[s.txn] == db.txns[t]
              && (!Raises(e) && Harmless(db, db.txns[t]) ==>
                    && Requests.Decide(atomic, Requests.Deliver(e, false)).answer == Requests.Processed
                    && Requests.Next(atomic, Requests.Deliver(e, false)) ==
                       atomic.(ledger := after.ledger, subs := after.subs))
            case Failed =>
              !db.txns[t].Arrived? ==>
                && Requests.Decide(atomic, Requests.Deliver(e, true)).answer == Requests.ServerError
                && after.ledger == atomic.ledger && after.subs == atomic.subs
  {
    if Commits(db, s) {
      HarmlessExactly(db, db.txns[s.txn]);
    }
  }

  /* ----- what the subscriptions come to ----- */

  /** The two rows agree in the fields that an event carries over. */
  predicate CarriedAlike(plans: seq<Plan>, e: Event, a: Subscription, b: Subscription) {
    match e.kind
    case CheckoutCompleted =>
      && (ActivePlanByCode(plans, e.planCode).None? ==> a.plan == b.plan)
      && (e.customer == "" ==> a.customerId == b.customerId)
      && (e.subscription == "" ==> a.subscriptionId == b.subscriptionId)
      && a.periodEnd == b.periodEnd
    case SubscriptionUpdated =>
      && (PlanForPrice(plans, e.price).None? ==> a.plan == b.plan)
      && a.customerId == b.customerId
      && (e.objectId == "" ==> a.subscriptionId == b.subscriptionId)
      && (!KnownStatus(e.status) ==> a.status == b.status)
      && (e.periodEnd.None? || e.periodEnd.value == 0 ==> a.periodEnd == b.periodEnd)
    case SubscriptionDeleted =>
      && (PlanByCode(plans, FREE).None? ==> a.plan == b.plan)
      && a.customerId == b.customerId && a.periodEnd == b.periodEnd
    case PaymentFailed => a.(status := b.status) == b
    case Unhandled => a == b
  }

  predicate KnownStatus(status: string) {
    status in {"active", "trialing", "past_due", "unpaid", "canceled", "incomplete", "incomplete_expired"}
  }

  lemma CarriedExactly(plans: seq<Plan>, e: Event, a: Subscription, b: Subscription)
    ensures CarriedAlike(plans, e, a, b) <==> Updated(plans, a, e) == Updated(plans, b, e)
  {
  }

  /** What the delivery saves is what its handler would come to now: it would find the same row, and
      the fields it carries over are as it read them, or it saves the status alone; or else it
      would find another, and changes neither that nor the one it saves. */
  predicate Harmless(db: Db, x: Txn)
    requires x.Saved?
  {
    var now := Lookup(db.subs, x.event);
    if now == x.key then
      x.key.Some? && !x.event.kind.PaymentFailed? ==>
        CarriedAlike(db.plans, x.event, x.seen, db.subs[x.key.value].row)
    else
      && (x.key.Some? && x.key.value in db.subs ==> SavedRow(db.plans, x, db.subs[x.key.value].row) == db.subs[x.key.value].row)
      && (now.Some? ==> Updated(db.plans, db.subs[now.value].row, x.event) == db.subs[now.value].row)
  }

  /** A commit does what the handler does in one go if and only if it is harmless. */
  lemma HarmlessExactly(db: Db, x: Txn)
    requires x.Saved?
    ensures SavedRows(db, x) == HandleEvent(db.plans, db.subs, x.event) <==> Harmless(db, x)
  {
    var e, now := x.event, Lookup(db.subs, x.event);
    var saved, handled := SavedRows(db, x), HandleEvent(db.plans, db.subs, e);
    if x.key.Some? && x.key.value in db.subs {
      CarriedExactly(db.plans, e, x.seen, db.subs[x.key.value].row);
      assert saved[x.key.value].row == SavedRow(db.plans, x, db.subs[x.key.value].row);
      assert db.subs[x.key.value := db.subs[x.key.value]] == db.subs;
    }
    if now.Some? {
      assert handled[now.value].row == Updated(db.plans, db.subs[now.value].row, e);
      assert db.subs[now.value := db.subs[now.value]] == db.subs;
    }
  }

  predicate Commits(db: Db, s: Step) {
    s.Commit? && s.txn in db.txns && db.txns[s.txn].Saved?
  }

  /** Every commit of the run is harmless. */
  ghost predicate HarmlessRun(db: Db, ss: seq<Step>) {
    ss == [] ||
    (var d, s := Run(db, ss[..|ss| - 1]), ss[|ss| - 1];
     && HarmlessRun(db, ss[..|ss| - 1])
     && (Commits(d, s) ==> Harmless(d, d.txns[s.txn])))
  }

  /** The subscriptions are those of handling the committed events one after another. */
  ghost predicate Folded(db: Db, d: Db) {
    d.subs == Deliveries.FoldEvents(db.plans, db.subs, d.effects)
  }

  /** So they are after every step of the run. */
  ghost predicate FoldThroughout(db: Db, ss: seq<Step>) {
    Folded(db, Run(db, ss)) && (ss == [] || FoldThroughout(db, ss[..|ss| - 1]))
  }

  lemma FoldAppend(plans: seq<Plan>, subs: Table<Subscription>, events: seq<Event>, e: Event)
    ensures Deliveries.FoldEvents(plans, subs, events + [e]) ==
            HandleEvent(plans, Deliveries.FoldEvents(plans, subs, events), e)
  {
    assert (events + [e])[..|events|] == events;
  }

  lemma {:induction false} SamePlans(db: Db, ss: seq<Step>)
    ensures Run(db, ss).plans == db.plans
  {
    if ss != [] {
      SamePlans(db, ss[..|ss| - 1]);
    }
  }

  lemma FoldStep(db: Db, d: Db, s: Step)
    requires d.plans == db.plans && Folded(db, d)
    ensures Folded(db, Apply(d, s)) <==> (Commits(d, s) ==> Harmless(d, d.txns[s.txn]))
  {
    if Commits(d, s) {
      HarmlessExactly(d, d.txns[s.txn]);
      FoldAppend(db.plans, db.subs, d.effects, d.txns[s.txn].event);
    } else {
      OnlyCommits(d, s);
    }
  }

  /** The subscriptions are throughout a run those of handling the committed events one after
      another, in the order of their commits, if and only if every commit is harmless. */
  lemma {:induction false} FoldExactly(db: Db, ss: seq<Step>)
    requires Idle(db)
    ensures FoldThroughout(db, ss) <==> HarmlessRun(db, ss)
  {
    if ss != [] {
      var init := ss[..|ss| - 1];
      FoldExactly(db, init);
      SamePlans(db, init);
      if FoldThroughout(db, init) {
        FoldStep(db, Run(db, init), ss[|ss| - 1]);
      }
    }
  }

  /** The delivery would find the same row now, and its fields are as it read them, unless it
      saves none of those. */
  ghost predicate Undisturbed(db: Db, x: Txn) {
    x.Read? || x.Saved? ==>
      && !Raises(x.event)
      && x.key == Lookup(db.subs, x.event)
      && (x.key.Some? && !x.event.kind.PaymentFailed? ==> x.seen == db.subs[x.key.value].row)
  }

  /** Every delivery of the run commits undisturbed. */
  ghost predicate UndisturbedRun(db: Db, ss: seq<Step>) {
    ss == [] ||
    (var init, s := ss[..|ss| - 1], ss[|ss| - 1];
     && UndisturbedRun(db, init)
     && (s.Commit? && s.txn in Run(db, init).txns ==> Undisturbed(Run(db, init), Run(db, init).txns[s.txn])))
  }

  /** Committed undisturbed, a delivery does what its handler does in one go. */
  lemma CommitsHandled(db: Db, x: Txn)
    requires x.Saved? && Undisturbed(db, x)
    ensures SavedRows(db, x) == HandleEvent(db.plans, db.subs, x.event)
  {
  }

  lemma {:induction false} UndisturbedIsHarmless(db: Db, ss: seq<Step>)
    requires Idle(db) && UndisturbedRun(db, ss)
    ensures HarmlessRun(db, ss)
  {
    if ss != [] {
      UndisturbedIsHarmless(db, ss[..|ss| - 1]);
      var d, s := Run(db, ss[..|ss| - 1]), ss[|ss| - 1];
      if Commits(d, s) {
        CommitsHandled(d, d.txns[s.txn]);
        HarmlessExactly(d, d.txns[s.txn]);
      }
    }
  }

  /** While deliveries commit undisturbed, the subscriptions are those of handling the committed
      events one after another, in the order of their commits. */
  lemma FoldHolds(db: Db, ss: seq<Step>)
    requires Idle(db) && UndisturbedRun(db, ss)
    ensures Folded(db, Run(db, ss))
  {
    UndisturbedIsHarmless(db, ss);
    FoldExactly(db, ss);
  }

  /* ----- one at a time per organization ----- */

  /** The event carries something to look a subscription up by. */
  predicate Addressed(e: Event) {
    !e.kind.Unhandled? && !Raises(e) && (!e.org.Absent? || LookupId(e) != "" || e.customer != "")
  }

  /** Both events are about one organization. */
  ghost predicate SameOrg(owners: Owners, e: Event, f: Event) {
    Addressed(e) && Addressed(f) && exists org :: About(owners, e, org) && About(owners, f, org)
  }

  predicate Underway(x: Txn) {
    x.Read? || x.Saved?
  }

  /** No two deliveries about one organization are between their read and their commit. */
  ghost predicate OneAtATime(owners: Owners, db: Db) {
    forall t, u | t in db.txns && u in db.txns && t != u && Underway(db.txns[t]) && Underway(db.txns[u]) ::
      !SameOrg(owners, db.txns[t].event, db.txns[u].event)
  }

  ghost predicate OneAtATimeRun(owners: Owners, db: Db, ss: seq<Step>) {
    OneAtATime(owners, Run(db, ss)) && (ss == [] || OneAtATimeRun(owners, db, ss[..|ss| - 1]))
  }

  ghost predicate ProperSteps(owners: Owners, ss: seq<Step>) {
    forall s :: s in ss && s.Arrive? ==> Proper(owners, s.event)
  }

  ghost predicate TidyInv(owners: Owners, db: Db) {
    && OwnIds(owners, db.subs)
    && (forall t :: t in db.txns ==> Proper(owners, db.txns[t].event))
    && (forall t :: t in db.txns ==> Undisturbed(db, db.txns[t]))
  }

  /** A lookup depends only on how the rows match the event. */
  lemma FindSame(subs: Table<Subscription>, after: Table<Subscription>, e: Event)
    requires subs.Keys == after.Keys && forall q :: q in subs ==> Tier(subs[q], e) == Tier(after[q], e)
    ensures Find(subs, e) == Find(after, e)
  {
    FindFirst(subs, e);
    FindFirst(after, e);
    var p, q := Find(subs, e), Find(after, e);
    assert p.Some? && q.Some? && p.value != q.value ==> Ahead(subs, e, p.value, q.value);
  }

  lemma NoTier(sub: Scoped<Subscription>, e: Event)
    requires !Addressed(e) && !e.kind.Unhandled? && !Raises(e)
    ensures Tier(sub, e) == 3
  {
  }

  /** A commit about one organization does not disturb a delivery about another. */
  lemma StaysUndisturbed(owners: Owners, db: Db, x: Txn, y: Txn)
    requires OwnIds(owners, db.subs) && Proper(owners, x.event) && Proper(owners, y.event)
    requires y.Saved? && Underway(x) && Undisturbed(db, x) && Undisturbed(db, y)
    requires !SameOrg(owners, x.event, y.event)
    ensures Undisturbed(db.(subs := SavedRows(db, y)), x)
  {
    var after := SavedRows(db, y);
    CommitsHandled(db, y);
    OwnIdsKept(owners, db.plans, db.subs, y.event);
    if y.key.Some? && !x.event.kind.Unhandled? {
      var k := y.key.value;
      FindFirst(db.subs, y.event);
      if Addressed(x.event) {
        Elsewhere(owners, db.subs, x.event, y.event, k);
        Elsewhere(owners, after, x.event, y.event, k);
      } else {
        NoTier(db.subs[k], x.event);
        NoTier(after[k], x.event);
      }
      FindFirst(db.subs, x.event);
      FindSame(db.subs, after, x.event);
    }
  }

  /** The row of one organization's event is none that another organization's leads to. */
  lemma Elsewhere(owners: Owners, subs: Table<Subscription>, e: Event, f: Event, k: nat)
    requires OwnIds(owners, subs) && Proper(owners, e) && Proper(owners, f) && !SameOrg(owners, e, f)
    requires Addressed(e) && !f.kind.Unhandled? && !Raises(f) && k in subs
    requires exists org :: About(owners, f, org) && subs[k].org == org && Addressed(f)
    ensures Tier(subs[k], e) == 3
  {
    var o :| About(owners, e, o);
    if Tier(subs[k], e) < 3 {
      TierAbout(owners, subs, e, o, k);
    }
  }

  lemma CommitKeepsTidy(owners: Owners, db: Db, t: nat)
    requires TidyInv(owners, db) && OneAtATime(owners, db) && t in db.txns && db.txns[t].Saved?
    ensures var after := Apply(db, Commit(t)); TidyInv(owners, after)
  {
    var y, after := db.txns[t], Apply(db, Commit(t));
    CommitsHandled(db, y);
    OwnIdsKept(owners, db.plans, db.subs, y.event);
    forall u | u in after.txns
      ensures Undisturbed(after, after.txns[u])
    {
      if Underway(db.txns[u]) {
        StaysUndisturbed(owners, db, db.txns[u], y);
      }
    }
  }

  lemma OtherKeepsTidy(owners: Owners, db: Db, s: Step)
    requires TidyInv(owners, db) && (s.Arrive? ==> Proper(owners, s.event)) && !s.Commit?
    ensures var after := Apply(db, s); TidyInv(owners, after)
  {
    var after := Apply(db, s);
    OnlyCommits(db, s);
    forall u | u in after.txns
      ensures Proper(owners, after.txns[u].event) && Undisturbed(after, after.txns[u])
    {
      if u in db.txns {
        assert Undisturbed(db, db.txns[u]);
      }
    }
  }

  lemma {:induction false} RunTidy(owners: Owners, db: Db, ss: seq<Step>)
    requires Idle(db) && OwnIds(owners, db.subs) && ProperSteps(owners, ss) && OneAtATimeRun(owners, db, ss)
    ensures var d := Run(db, ss); TidyInv(owners, d)
    ensures UndisturbedRun(db, ss)
  {
    if ss != [] {
      var init, s := ss[..|ss| - 1], ss[|ss| - 1];
      assert forall x :: x in init ==> x in ss;
      RunTidy(owners, db, init);
      var d := Run(db, init);
      if s.Commit? {
        if s.txn in d.txns && d.txns[s.txn].Saved? {
          CommitKeepsTidy(owners, d, s.txn);
        }
      } else {
        OtherKeepsTidy(owners, d, s);
      }
    }
  }

  /** When no event carries ids of two organizations, and deliveries about one organization do not
      overlap between read and commit, the subscriptions come out as if the committed events
      had been handled one after another - whatever else overlaps, duplicates included. */
  lemma FoldOneAtATime(owners: Owners, db: Db, ss: seq<Step>)
    requires Idle(db) && OwnIds(owners, db.subs) && ProperSteps(owners, ss) && OneAtATimeRun(owners, db, ss)
    ensures var d := Run(db, ss); d.subs == Deliveries.FoldEvents(db.plans, db.subs, d.effects)
  {
    RunTidy(owners, db, ss);
    FoldHolds(db, ss);
  }

  /* ----- the order matters ----- */

  ghost predicate Reaches(db: Db, d: Db) {
    exists ss :: Run(db, ss) == d
  }

  lemma OneStep(db: Db, d: Db, s: Step)
    requires Reaches(db, d)
    ensures Reaches(db, Apply(d, s))
  {
    var ss :| Run(db, ss) == d;
    assert (ss + [s])[..|ss|] == ss;
    assert Run(db, ss + [s]) == Apply(d, s);
  }

  lemma Records(db: Db, d: Db, t: nat, e: Event)
    requires Reaches(db, d) && t !in d.txns && t !in d.replies && e.id !in d.ledger
    requires forall u :: u in d.txns ==> d.txns[u].event.id != e.id
    ensures Reaches(db, Move(d, t, Recorded(e)))
  {
    OneStep(db, d, Arrive(t, e));
    var arrived := Move(d, t, Arrived(e));
    OneStep(db, arrived, Record(t));
    assert !Blocked(arrived, t, e.id);
    assert arrived.txns[t := Recorded(e)] == d.txns[t := Recorded(e)];
  }

  /** A delivery arrives, records its id and reads. */
  lemma Reads(db: Db, d: Db, t: nat, e: Event)
    requires Reaches(db, d) && t !in d.txns && t !in d.replies && e.id !in d.ledger && !Raises(e)
    requires forall u :: u in d.txns ==> d.txns[u].event.id != e.id
    ensures Reaches(db, Move(d, t, Fetched(d, e)))
  {
    Records(db, d, t, e);
    var recorded := Move(d, t, Recorded(e));
    OneStep(db, recorded, Fetch(t));
    assert recorded.txns[t := Fetched(d, e)] == d.txns[t := Fetched(d, e)];
  }

  /** Then it saves and commits, if no other has saved a row. */
  lemma Finishes(db: Db, d: Db, t: nat, x: Txn)
    requires Reaches(db, d) && x.Saved? && t in d.txns && d.txns[t] == Read(x.event, x.key, x.seen)
    requires forall u :: u in d.txns ==> !d.txns[u].Saved?
    ensures Reaches(db, Answer(d, t, Processed).(ledger := d.ledger + {x.event.id}, subs := SavedRows(d, x),
                                                 effects := d.effects + [x.event]))
  {
    OneStep(db, d, Save(t));
    var saved := Move(d, t, x);
    OneStep(db, saved, Commit(t));
    assert saved.txns - {t} == d.txns - {t};
  }

  const CATALOGUE := [Plan(FREE, "", Some(3), Some(3), true)]
  const RENEWABLE := Subscription(FREE, "", "", Active, None)

  /** Two updates of one subscription: it is past due, and its period ends at 5. */
  const OVERDUE := Event("e8", SubscriptionUpdated, Named(1), "s", "", "", None, "past_due", None, "")
  const RENEWED := Event("e9", SubscriptionUpdated, Named(1), "s", "", "", None, "", Some(5), "")

  function Quiet(): Db {
    Db(CATALOGUE, {}, map[1 := Scoped(1, RENEWABLE)], map[], map[], [])
  }

  function BothRead(): Db {
    Quiet().(txns := map[8 := Read(OVERDUE, Some(1), RENEWABLE), 9 := Read(RENEWED, Some(1), RENEWABLE)])
  }

  lemma BothReadReached()
    ensures Reaches(Quiet(), BothRead())
  {
    var d0 := Quiet();
    assert Run(d0, []) == d0;
    assert SubKeys(d0.subs, 1) == {1};
    Reads(d0, d0, 8, OVERDUE);
    var d1 := Move(d0, 8, Read(OVERDUE, Some(1), RENEWABLE));
    assert Fetched(d0, OVERDUE) == d1.txns[8];
    Reads(d0, d1, 9, RENEWED);
    assert Move(d1, 9, Fetched(d1, RENEWED)).txns == BothRead().txns;
  }

  function FirstCommitted(): Db {
    Quiet().(ledger := {"e8"}, effects := [OVERDUE], replies := map[8 := Processed],
             txns := map[9 := Read(RENEWED, Some(1), RENEWABLE)],
             subs := map[1 := Scoped(1, RENEWABLE.(subscriptionId := "s", status := PastDue))])
  }

  lemma FirstCommittedReached()
    ensures Reaches(Quiet(), FirstCommitted())
  {
    BothReadReached();
    Finishes(Quiet(), BothRead(), 8, Saved(OVERDUE, Some(1), RENEWABLE));
    assert SavedRows(BothRead(), Saved(OVERDUE, Some(1), RENEWABLE)) == FirstCommitted().subs;
    assert BothRead().txns - {8} == FirstCommitted().txns;
    assert {} + {"e8"} == FirstCommitted().ledger;
  }

  /** When both handlers read before either commits, the second commit undoes the first: the
      subscription ends active, where handling one after the other leaves it past due. */
  lemma LostUpdate()
    ensures exists d :: && Reaches(Quiet(), d) && d.effects == [OVERDUE, RENEWED]
                        && d.subs == map[1 := Scoped(1, RENEWABLE.(subscriptionId := "s", periodEnd := Some(5)))]
    ensures Deliveries.FoldEvents(CATALOGUE, Quiet().subs, [OVERDUE, RENEWED])
            == map[1 := Scoped(1, RENEWABLE.(subscriptionId := "s", status := PastDue, periodEnd := Some(5)))]
  {
    var first := FirstCommitted();
    FirstCommittedReached();
    Finishes(Quiet(), first, 9, Saved(RENEWED, Some(1), RENEWABLE));
    assert SavedRows(first, Saved(RENEWED, Some(1), RENEWABLE)) ==
           map[1 := Scoped(1, RENEWABLE.(subscriptionId := "s", periodEnd := Some(5)))];
    FoldOfTwo();
  }

  lemma FoldOfTwo()
    ensures Deliveries.FoldEvents(CATALOGUE, Quiet().subs, [OVERDUE, RENEWED])
            == map[1 := Scoped(1, RENEWABLE.(subscriptionId := "s", status := PastDue, periodEnd := Some(5)))]
  {
    assert [OVERDUE, RENEWED] == [OVERDUE] + [RENEWED] && [OVERDUE] == [] + [OVERDUE];
    FoldAppend(CATALOGUE, Quiet().subs, [], OVERDUE);
    FoldAppend(CATALOGUE, Quiet().subs, [OVERDUE], RENEWED);
    assert SubKeys(Quiet().subs, 1) == {1};
    var mid := HandleEvent(CATALOGUE, Quiet().subs, OVERDUE);
    assert SubKeys(mid, 1) == {1};
  }
}
