/** The serial order of interleaved project requests, carried out as API requests and webhook
    deliveries one at a time. */
module ProjectRuns {
  import opened Models
  import opened Rbac
  import opened Billing
  import R = Requests
  import opened ProjectLock
  import Deliveries
  import Slugs

  /** Some active plan with a price has this cap. */
  ghost predicate Offered(plans: seq<Plan>, cap: Option<int>) {
    exists price :: PlanForPrice(plans, price).Some? && PlanForPrice(plans, price).value.maxProjects == cap
  }

  /** The user owns the organization, and the organization has its subscription. */
  ghost predicate Stands(s: State, actor: nat, org: nat) {
    actor in s.users && CallerRole(s.members, actor, org) == Some(Owner) && SubKeys(s.subs, org) != {}
  }

  /** How the reply of a serial operation reads as an API answer. */
  predicate Reads(answer: R.Answer, reply: Reply) {
    match reply
    case Created => answer.ProjectBody?
    case Edited => answer.ProjectBody?
    case LimitReached => answer == R.PaymentRequired
    case Deleted => answer == R.NoContent
    case Missing => answer == R.NotFound
    case Done => answer == R.Processed
    case Failed => false
  }

  /** The request is this operation's: on the same organization and project, but that the number of a
      create that is refused does not matter. */
  predicate Performs(r: R.Request, org: nat, op: Op, reply: Reply) {
    match op
    case Create(_, pk) => r.CreateProject? && r.header == Some(org) && (reply == Created ==> r.pk == pk)
    case Delete(_, pk, _) => r.DestroyProject? && r.header == Some(org) && r.project == pk
    case Edit(_, pk, _) => r.UpdateProject? && r.header == Some(org) && r.project == pk
    case SetCap(_, _) => r.Deliver? && r.event.org == Named(org)
  }

  /** What carrying out one operation as a request comes to. */
  ghost predicate CarriedOut(s: State, actor: nat, org: nat, op: Op, r: R.Request) {
    var t := R.Next(s, r);
    && View(t, org) == SerialState(View(s, org), op)
    && Performs(r, org, op, SerialReply(View(s, org), op))
    && Reads(R.Decide(s, r).answer, SerialReply(View(s, org), op))
    && Stands(t, actor, org) && t.plans == s.plans
    && t.projects.Keys <= s.projects.Keys + if op.Create? && SerialReply(View(s, org), op) == Created then {op.pk} else {}
  }

  lemma {:induction false} UnusedNumber(keys: set<nat>) returns (n: nat)
    ensures forall k :: k in keys ==> k < n
  {
    n := 0;
    if keys != {} {
      var k :| k in keys;
      var m := UnusedNumber(keys - {k});
      n := if m <= k then k + 1 else m;
      assert forall j :: j in keys ==> j == k || j in keys - {k};
    }
  }

  /** A write to the projects leaves everything else alone, and adds at most its own number. */
  ghost predicate ProjectsOnly(s: State, t: State, added: set<nat>) {
    && t.users == s.users && t.members == s.members && t.subs == s.subs && t.plans == s.plans
    && t.projects.Keys <= s.projects.Keys + added
  }

  lemma ProjectWrite(s: State, c: R.Change)
    requires c.Nothing? || c.ProjectInserted? || c.ProjectRemoved? || (c.ProjectSaved? && c.pk in s.projects)
    ensures ProjectsOnly(s, R.Apply(s, c), if c.ProjectInserted? then {c.pk} else {})
  {
  }

  lemma ProjectDecision(s: State, r: R.Request)
    requires r.CreateProject? || r.DestroyProject?
    ensures var d := R.Decide(s, r);
            && (d.change.Nothing? || d.change.ProjectInserted? || d.change.ProjectRemoved?)
            && (d.change.ProjectInserted? ==> r.CreateProject? && d.change.pk == r.pk && d.answer.ProjectBody?)
  {
  }

  lemma EditDecision(s: State, r: R.Request)
    requires r.UpdateProject?
    ensures var c := R.Decide(s, r).change; c.Nothing? || (c.ProjectSaved? && c.pk in s.projects)
  {
  }

  lemma EditOut(s: State, actor: nat, org: nat, txn: nat, pk: nat, since: nat) returns (r: R.Request)
    requires Stands(s, actor, org)
    ensures CarriedOut(s, actor, org, Edit(txn, pk, since), r)
  {
    r := R.UpdateProject(actor, Some(org), pk, "p");
    EditIsRequest(s, actor, org, pk, "p", txn, since);
    EditDecision(s, r);
    ProjectWrite(s, R.Decide(s, r).change);
  }

  lemma CreateOut(s: State, actor: nat, org: nat, txn: nat, pk: nat) returns (r: R.Request)
    requires Stands(s, actor, org)
    requires SerialReply(View(s, org), Create(txn, pk)) == Created ==> pk !in s.projects
    ensures CarriedOut(s, actor, org, Create(txn, pk), r)
  {
    var k := UnusedNumber(s.projects.Keys);
    if SerialReply(View(s, org), Create(txn, pk)) == Created {
      k := pk;
    }
    r := R.CreateProject(actor, Some(org), "p", k);
    CreateIsRequest(s, actor, org, "p", k, txn);
    ProjectDecision(s, r);
    ProjectWrite(s, R.Decide(s, r).change);
  }

  lemma DeleteOut(s: State, actor: nat, org: nat, txn: nat, pk: nat, since: nat) returns (r: R.Request)
    requires Stands(s, actor, org)
    ensures CarriedOut(s, actor, org, Delete(txn, pk, since), r)
  {
    r := R.DestroyProject(actor, Some(org), pk);
    DeleteIsRequest(s, actor, org, pk, txn, since);
    ProjectDecision(s, r);
    ProjectWrite(s, R.Decide(s, r).change);
  }

  lemma {:induction false} FoundByCode(plans: seq<Plan>, plan: Plan)
    requires UniqueCodes(plans) && plan in plans
    ensures PlanByCode(plans, plan.code) == Some(plan)
  {
  }

  lemma UpdateOut(s: State, actor: nat, org: nat, txn: nat, cap: Option<int>) returns (r: R.Request)
    requires Stands(s, actor, org) && UniqueCodes(s.plans) && Offered(s.plans, cap)
    ensures CarriedOut(s, actor, org, SetCap(txn, cap), r)
  {
    var price :| PlanForPrice(s.plans, price).Some? && PlanForPrice(s.plans, price).value.maxProjects == cap;
    var plan := PlanForPrice(s.plans, price).value;
    var e := Event(Slugs.FreeSlug("e", s.ledger), SubscriptionUpdated, Named(org), "", "", "", None, "", None, price);
    r := R.Deliver(e, false);
    var key := First(SubKeys(s.subs, org)).value;
    Deliveries.DeliverNext(s, r);
    MovesPlan(s.plans, s.subs, org, key, e);
    FoundByCode(s.plans, plan);
  }

  /** An update that names an organization and a price moves its plan to the price's. */
  lemma MovesPlan(plans: seq<Plan>, subs: Table<Subscription>, org: nat, key: nat, e: Billing.Event)
    requires SubKeys(subs, org) != {} && First(SubKeys(subs, org)) == Some(key)
    requires e.kind.SubscriptionUpdated? && e.org == Named(org) && PlanForPrice(plans, e.price).Some?
    ensures var after := HandleEvent(plans, subs, e);
            && SubKeys(after, org) == SubKeys(subs, org)
            && PlanOf(plans, after, org) == PlanByCode(plans, PlanForPrice(plans, e.price).value.code)
  {
    var after := HandleEvent(plans, subs, e);
    assert after == subs[key := Scoped(org, Updated(plans, subs[key].row, e))];
    assert SubKeys(after, org) == SubKeys(subs, org);
  }

  predicate Creation(entry: Entry) {
    entry.op.Create? && entry.reply == Created
  }

  /** Rows created along a log are new and all different. */
  ghost predicate NewRows(log: seq<Entry>, used: set<nat>) {
    && (forall i :: 0 <= i < |log| && Creation(log[i]) ==> log[i].op.pk !in used)
    && (forall i, j :: 0 <= i < j < |log| && Creation(log[i]) && Creation(log[j]) ==> log[i].op.pk != log[j].op.pk)
  }

  ghost predicate AllOffered(log: seq<Entry>, plans: seq<Plan>) {
    forall i :: 0 <= i < |log| && log[i].op.SetCap? ==> Offered(plans, log[i].op.cap)
  }

  function CreatedRows(log: seq<Entry>): set<nat> {
    set i | 0 <= i < |log| && Creation(log[i]) :: log[i].op.pk
  }

  /** The requests answer as the operations of the log do when run one at a time. */
  ghost predicate AnswersOf(s: State, org: nat, log: seq<Entry>, rs: seq<R.Request>)
    requires |rs| == |log|
  {
    forall i :: 0 <= i < |log| ==> AnswerOf(s, org, log[..i], rs[..i], log[i].op, rs[i])
  }

  /** After these requests, the next is this operation, and answers as it does after this log. */
  ghost predicate AnswerOf(s: State, org: nat, log: seq<Entry>, rs: seq<R.Request>, op: Op, r: R.Request) {
    var reply := SerialReply(Replay(View(s, org), log), op);
    Performs(r, org, op, reply) && Reads(R.Decide(R.Run(s, rs), r).answer, reply)
  }

  /** One entry of the log, as a request. */
  lemma EntryOut(s: State, actor: nat, org: nat, op: Op) returns (r: R.Request)
    requires Stands(s, actor, org) && UniqueCodes(s.plans)
    requires op.SetCap? ==> Offered(s.plans, op.cap)
    requires op.Create? && SerialReply(View(s, org), op) == Created ==> op.pk !in s.projects
    ensures CarriedOut(s, actor, org, op, r)
  {
    match op
    case Create(txn, pk) => r := CreateOut(s, actor, org, txn, pk);
    case Delete(txn, pk, since) => r := DeleteOut(s, actor, org, txn, pk, since);
    case Edit(txn, pk, since) => r := EditOut(s, actor, org, txn, pk, since);
    case SetCap(txn, cap) => r := UpdateOut(s, actor, org, txn, cap);
  }

  lemma PrefixOf(log: seq<Entry>, used: set<nat>, plans: seq<Plan>, start: Serial)
    requires log != [] && NewRows(log, used) && AllOffered(log, plans) && Legal(start, log)
    ensures var before := log[..|log| - 1];
            && NewRows(before, used) && AllOffered(before, plans) && Legal(start, before)
            && (Creation(log[|log| - 1]) ==> log[|log| - 1].op.pk !in used + CreatedRows(before))
            && CreatedRows(before) <= CreatedRows(log)
            && (Creation(log[|log| - 1]) ==> log[|log| - 1].op.pk in CreatedRows(log))
  {
  }

  lemma AnswersNext(s: State, org: nat, log: seq<Entry>, rs: seq<R.Request>, entry: Entry, r: R.Request)
    requires |rs| == |log| && AnswersOf(s, org, log, rs)
    requires AnswerOf(s, org, log, rs, entry.op, r)
    ensures AnswersOf(s, org, log + [entry], rs + [r])
  {
    var longer, more := log + [entry], rs + [r];
    forall i | 0 <= i < |longer|
      ensures AnswerOf(s, org, longer[..i], more[..i], longer[i].op, more[i])
    {
      if i < |log| {
        assert more[..i] == rs[..i] && longer[..i] == log[..i];
      } else {
        assert more[..i] == rs && longer[..i] == log;
      }
    }
  }

  /** The requests carry out the log, and end in `t`. */
  ghost predicate LogCarriedOut(s: State, actor: nat, org: nat, log: seq<Entry>, rs: seq<R.Request>, t: State) {
    && |rs| == |log| && AnswersOf(s, org, log, rs)
    && t == R.Run(s, rs) && t.plans == s.plans && Stands(t, actor, org)
    && View(t, org) == Replay(View(s, org), log)
    && t.projects.Keys <= s.projects.Keys + CreatedRows(log)
  }

  lemma ReplayNext(start: Serial, log: seq<Entry>, entry: Entry)
    ensures Replay(start, log + [entry]) == SerialState(Replay(start, log), entry.op)
  {
    var longer := log + [entry];
    assert longer[..|longer| - 1] == log;
  }

  lemma RowsNext(log: seq<Entry>, entry: Entry)
    ensures CreatedRows(log + [entry]) == CreatedRows(log) + if Creation(entry) then {entry.op.pk} else {}
  {
    var longer := log + [entry];
    assert forall i :: 0 <= i < |log| ==> longer[i] == log[i];
    assert longer[|log|] == entry;
    forall pk | pk in CreatedRows(log)
      ensures pk in CreatedRows(longer)
    {
      var i :| 0 <= i < |log| && Creation(log[i]) && log[i].op.pk == pk;
      assert Creation(longer[i]);
    }
  }

  lemma LogOutNext(s: State, actor: nat, org: nat, log: seq<Entry>, rs: seq<R.Request>, t: State, entry: Entry)
    returns (r: R.Request)
    requires LogCarriedOut(s, actor, org, log, rs, t) && UniqueCodes(s.plans)
    requires Right(View(t, org), log, entry) && (entry.op.SetCap? ==> Offered(s.plans, entry.op.cap))
    requires Creation(entry) ==> entry.op.pk !in s.projects.Keys + CreatedRows(log)
    ensures LogCarriedOut(s, actor, org, log + [entry], rs + [r], R.Next(t, r))
  {
    r := EntryOut(t, actor, org, entry.op);
    Deliveries.RunAppend(s, rs, r);
    AnswersNext(s, org, log, rs, entry, r);
    ReplayNext(View(s, org), log, entry);
    RowsNext(log, entry);
  }

  /** A legal log can be carried out as requests, one at a time. */
  lemma {:induction false} LogOut(s: State, actor: nat, org: nat, log: seq<Entry>)
    returns (rs: seq<R.Request>, t: State)
    requires Stands(s, actor, org) && UniqueCodes(s.plans)
    requires Legal(View(s, org), log) && NewRows(log, s.projects.Keys) && AllOffered(log, s.plans)
    ensures LogCarriedOut(s, actor, org, log, rs, t)
  {
    if log == [] {
      rs, t := [], s;
    } else {
      var before, entry := log[..|log| - 1], log[|log| - 1];
      PrefixOf(log, s.projects.Keys, s.plans, View(s, org));
      rs, t := LogOut(s, actor, org, before);
      assert Right(View(t, org), before, entry);
      var r := LogOutNext(s, actor, org, before, rs, t, entry);
      rs, t := rs + [r], R.Next(t, r);
      assert before + [entry] == log;
    }
  }

  /* ----- what a run logs ----- */

  /** Rows in the log or about to be committed are new, and plan updates are to plans on offer. */
  ghost predicate LogsNew(used: set<nat>, plans: seq<Plan>, db: Db) {
    && NewRows(db.log, used) && used <= db.used && CreatedRows(db.log) <= db.used
    && AllOffered(db.log, plans)
    && (forall t :: t in db.txns ==> TxnNew(used + CreatedRows(db.log), db.used, plans, db.txns[t]))
  }

  ghost predicate TxnNew(taken: set<nat>, used: set<nat>, plans: seq<Plan>, x: Txn) {
    && (x.Inserted? ==> x.pk in used && x.pk !in taken)
    && (x.Updating? || x.Saved? ==> Offered(plans, x.cap))
  }

  lemma NewRowsNext(log: seq<Entry>, entry: Entry, used: set<nat>, plans: seq<Plan>)
    requires NewRows(log, used) && AllOffered(log, plans)
    requires Creation(entry) ==> entry.op.pk !in used + CreatedRows(log)
    requires entry.op.SetCap? ==> Offered(plans, entry.op.cap)
    ensures NewRows(log + [entry], used) && AllOffered(log + [entry], plans)
  {
    assert forall i :: 0 <= i < |log| ==> (log + [entry])[i] == log[i];
    assert forall i :: 0 <= i < |log| && Creation(log[i]) ==> log[i].op.pk in CreatedRows(log);
  }

  ghost predicate OfferedEvents(plans: seq<Plan>, es: seq<ProjectLock.Event>) {
    forall e :: e in es && e.BeginUpdate? ==> Offered(plans, e.cap)
  }

  lemma LogsNewKept(used: set<nat>, plans: seq<Plan>, db: Db, e: ProjectLock.Event)
    requires RowInv(db) && LogsNew(used, plans, db) && (e.BeginUpdate? ==> Offered(plans, e.cap))
    ensures LogsNew(used, plans, Apply(db, e))
  {
    Logged(db, e);
    if Logs(db, e) {
      NewRowsNext(db.log, EntryOf(db, e), used, plans);
      RowsNext(db.log, EntryOf(db, e));
    }
    var after := Apply(db, e);
    forall t | t in after.txns
      ensures TxnNew(used + CreatedRows(after.log), after.used, plans, after.txns[t])
    {
      if e.txn == t {
        OwnTxnNew(used + CreatedRows(db.log), plans, db, e);
      } else {
        Undisturbed(db, e, t);
        assert TxnNew(used + CreatedRows(db.log), db.used, plans, db.txns[t]);
      }
    }
  }

  lemma OwnTxnNew(taken: set<nat>, plans: seq<Plan>, db: Db, e: ProjectLock.Event)
    requires taken <= db.used && e.txn in Apply(db, e).txns && (e.BeginUpdate? ==> Offered(plans, e.cap))
    requires e.txn in db.txns ==> TxnNew(taken, db.used, plans, db.txns[e.txn])
    ensures TxnNew(taken, Apply(db, e).used, plans, Apply(db, e).txns[e.txn])
    ensures Logs(db, e) ==> !Creation(EntryOf(db, e))
  {
  }

  lemma {:induction false} RunLogsNew(db: Db, plans: seq<Plan>, es: seq<ProjectLock.Event>)
    requires Idle(db) && db.row && OfferedEvents(plans, es)
    ensures LogsNew(db.used, plans, Run(db, es))
  {
    if es != [] {
      var init, e := es[..|es| - 1], es[|es| - 1];
      assert forall x :: x in init ==> x in es;
      RunLogsNew(db, plans, init);
      RunRows(db, init);
      LogsNewKept(db.used, plans, Run(db, init), e);
    }
  }

  /** A delete whose project was gone when it removed it. */
  predicate Late(log: seq<Entry>, i: nat)
    requires i < |log|
  {
    log[i].op.Delete? && log[i].reply == Deleted && Gone(log[..i], log[i].op.pk, log[i].op.since)
  }

  lemma {:induction false} LegalAt(start: Serial, log: seq<Entry>, i: nat)
    requires Legal(start, log) && i < |log|
    ensures Right(Replay(start, log[..i]), log[..i], log[i])
  {
    if i < |log| - 1 {
      LegalAt(start, log[..|log| - 1], i);
      assert log[..|log| - 1][..i] == log[..i];
    }
  }

  lemma EntryAnswered(s: State, org: nat, log: seq<Entry>, i: nat, rs: seq<R.Request>, r: R.Request)
    requires i < |log| && AnswerOf(s, org, log[..i], rs, log[i].op, r)
    requires Right(Replay(View(s, org), log[..i]), log[..i], log[i])
    ensures AnswersEntry(s, org, log, i, rs, r)
  {
  }

  /** What interleaved creates, deletes, edits and plan updates come to, unless an edit revives a row,
      requests carried out one at a time come to as well: the i-th is the i-th operation of the
      serial order, they leave the same projects and the same cap, and each answers as the
      interleaved request did, but for deletes whose project was gone, which find none. */
  lemma RunAsRequests(db: Db, es: seq<ProjectLock.Event>, s: State, actor: nat, org: nat) returns (rs: seq<R.Request>)
    requires Idle(db) && db.row && View(s, org) == Serial(db.cap, db.projects) && s.projects.Keys <= db.used
    requires Stands(s, actor, org) && UniqueCodes(s.plans) && OfferedEvents(s.plans, es)
    ensures var d := Run(db, es);
            d.revived == 0 ==>
            && View(R.Run(s, rs), org) == Serial(d.cap, d.projects)
            && |rs| == |d.log|
            && forall i :: 0 <= i < |rs| ==> AnswersEntry(s, org, d.log, i, rs[..i], rs[i])
  {
    var d := Run(db, es);
    rs := [];
    if d.revived == 0 {
      RunKeeps(db, es);
      RunLogsNew(db, s.plans, es);
      var t;
      rs, t := LogOut(s, actor, org, d.log);
      forall i | 0 <= i < |rs|
        ensures AnswersEntry(s, org, d.log, i, rs[..i], rs[i])
      {
        LegalAt(View(s, org), d.log, i);
        EntryAnswered(s, org, d.log, i, rs[..i], rs[i]);
      }
    }
  }

  /** After these requests, the next is the operation of entry i, and answers what the entry says, or
      that there is no such project if it is a delete whose project was gone. */
  ghost predicate AnswersEntry(s: State, org: nat, log: seq<Entry>, i: nat, rs: seq<R.Request>, r: R.Request)
    requires i < |log|
  {
    var answer := R.Decide(R.Run(s, rs), r).answer;
    && Performs(r, org, log[i].op, log[i].reply)
    && if Late(log, i) then answer == R.NotFound else Reads(answer, log[i].reply)
  }
}
