/** Project creates of one organization, interleaved statement by statement with each other,
    with project deletes and edits, which take no lock, and with plan updates from webhooks. Every
    statement reads the latest committed rows; what a transaction writes is seen by others when
    it commits; the lock on the subscription row is held until then. */
module ProjectLock {
  import opened Models
  import opened Billing
  import Requests

  /** How far a request has come. A create locks the subscription row, reads the cap, counts the
      projects, inserts its row and commits, or answers that the limit is reached. A delete finds
      the row and then removes it, an edit finds the row and then saves it, in two statements each;
      `since` is the length of the log when it found it. A plan update locks the row when it saves
      it. */
  datatype Txn =
    | Arrived
    | Locked
    | CapRead(cap: Option<int>)
    | Cleared
    | Inserted(pk: nat)
    | Refused
    | Finding(pk: nat, write: Write)
    | Found(pk: nat, since: nat, write: Write)
    | Updating(cap: Option<int>)
    | Saved(cap: Option<int>)

  datatype Write = Removing | Editing

  datatype Op =
    | Create(txn: nat, pk: nat)
    | Delete(txn: nat, pk: nat, since: nat)
    | Edit(txn: nat, pk: nat, since: nat)
    | SetCap(txn: nat, cap: Option<int>)

  datatype Reply = Created | LimitReached | Deleted | Edited | Missing | Done | Failed

  datatype Entry = Entry(op: Op, reply: Reply)

  /** The committed rows: `row` says whether the organization has a subscription row, `cap` is its
      plan's project cap, `projects` are the project ids. `used` are ids ever handed out, `txns`
      the transactions in flight, and `replies` the answers given so far. `log` is
      the serial order in question: operations in the order in which they take effect. `revived`
      counts the rows that an edit has saved although they were no longer there. */
  datatype Db = Db(row: bool, cap: Option<int>, projects: set<nat>, used: set<nat>,
                   txns: map<nat, Txn>, replies: map<nat, Reply>, log: seq<Entry>, revived: nat)

  datatype Event =
    | Arrive(txn: nat)
    | Lock(txn: nat)
    | ReadCap(txn: nat)
    | Count(txn: nat)
    | Insert(txn: nat, pk: nat)
    | Commit(txn: nat)
    | Crash(txn: nat)
    | BeginDelete(txn: nat, pk: nat)
    | BeginEdit(txn: nat, pk: nat)
    | Find(txn: nat)
    | Remove(txn: nat)
    | SaveEdit(txn: nat)
    | BeginUpdate(txn: nat, cap: Option<int>)
    | Save(txn: nat)

  predicate Holds(t: Txn) {
    !t.Arrived? && !t.Updating? && !t.Finding? && !t.Found?
  }

  /** The row lock can be taken: nobody holds it, or there is no row to lock. */
  predicate Free(db: Db) {
    db.row ==> forall t :: t in db.txns ==> !Holds(db.txns[t])
  }

  predicate Known(db: Db, t: nat) {
    t in db.txns || t in db.replies
  }

  function Move(db: Db, t: nat, to: Txn): Db {
    db.(txns := db.txns[t := to])
  }

  function Answer(db: Db, t: nat, reply: Reply): Db {
    db.(txns := db.txns - {t}, replies := db.replies[t := reply])
  }

  function Log(db: Db, op: Op, reply: Reply): Db {
    db.(log := db.log + [Entry(op, reply)])
  }

  /** The cap a create compares with, which without a subscription is the built-in one. */
  function CurrentCap(db: Db): Option<int> {
    if db.row then db.cap else DEFAULT_CAP
  }

  function CommitTxn(db: Db, t: nat): Db
    requires t in db.txns
  {
    match db.txns[t]
    case Inserted(pk) => Log(Answer(db, t, Created).(projects := db.projects + {pk}), Create(t, pk), Created)
    case Refused => Answer(db, t, LimitReached)
    case Saved(cap) => Log(Answer(db, t, Done).(cap := cap), SetCap(t, cap), Done)
    case _ => db
  }

  function WriteOp(t: nat, pk: nat, since: nat, write: Write): Op {
    if write.Removing? then Delete(t, pk, since) else Edit(t, pk, since)
  }

  /** One statement of one transaction. An edit saves its row whether or not it is still there:
      where the update meets no row it inserts one, and nothing is counted. A statement that cannot run now does nothing: it waits. */
  function Apply(db: Db, e: Event): Db {
    match e
    case Arrive(t) => if Known(db, t) then db else Move(db, t, Arrived)
    case Lock(t) => if t in db.txns && db.txns[t].Arrived? && Free(db) then Move(db, t, Locked) else db
    case ReadCap(t) => if t in db.txns && db.txns[t].Locked? then Move(db, t, CapRead(CurrentCap(db))) else db
    case Count(t) =>
      if t in db.txns && db.txns[t].CapRead? then
        if Full(|db.projects|, db.txns[t].cap) then Log(Move(db, t, Refused), Create(t, 0), LimitReached)
        else Move(db, t, Cleared)
      else db
    case Insert(t, pk) =>
      if t in db.txns && db.txns[t].Cleared? && pk !in db.used then
        Move(db, t, Inserted(pk)).(used := db.used + {pk})
      else db
    case Commit(t) => if t in db.txns then CommitTxn(db, t) else db
    case Crash(t) => if t in db.txns then Answer(db, t, Failed) else db
    case BeginDelete(t, pk) => if Known(db, t) then db else Move(db, t, Finding(pk, Removing))
    case BeginEdit(t, pk) => if Known(db, t) then db else Move(db, t, Finding(pk, Editing))
    case Find(t) =>
      if t in db.txns && db.txns[t].Finding? then
        var x := db.txns[t];
        if x.pk in db.projects then Move(db, t, Found(x.pk, |db.log|, x.write))
        else Log(Answer(db, t, Missing), WriteOp(t, x.pk, |db.log|, x.write), Missing)
      else db
    case Remove(t) =>
      if t in db.txns && db.txns[t].Found? && db.txns[t].write.Removing? then
        var x := db.txns[t];
        Log(Answer(db, t, Deleted).(projects := db.projects - {x.pk}), Delete(t, x.pk, x.since), Deleted)
      else db
    case SaveEdit(t) =>
      if t in db.txns && db.txns[t].Found? && db.txns[t].write.Editing? then
        var x := db.txns[t];
        Log(Answer(db, t, Edited).(projects := db.projects + {x.pk},
                                   revived := db.revived + if x.pk in db.projects then 0 else 1),
            Edit(t, x.pk, x.since), Edited)
      else db
    case BeginUpdate(t, cap) => if Known(db, t) then db else Move(db, t, Updating(cap))
    case Save(t) =>
      if t in db.txns && db.txns[t].Updating? && db.row && Free(db) then Move(db, t, Saved(db.txns[t].cap)) else db
  }

  function Run(db: Db, es: seq<Event>): Db {
    if es == [] then db else Apply(Run(db, es[..|es| - 1]), es[|es| - 1])
  }

  /* ----- the serial order ----- */

  datatype Serial = Serial(cap: Option<int>, projects: set<nat>)

  /** What an operation answers when it runs alone. */
  function SerialReply(s: Serial, op: Op): Reply {
    match op
    case Create(_, _) => if Full(|s.projects|, s.cap) then LimitReached else Created
    case Delete(_, pk, _) => if pk in s.projects then Deleted else Missing
    case Edit(_, pk, _) => if pk in s.projects then Edited else Missing
    case SetCap(_, _) => Done
  }

  function SerialState(s: Serial, op: Op): Serial {
    match op
    case Create(_, pk) => if Full(|s.projects|, s.cap) then s else s.(projects := s.projects + {pk})
    case Delete(_, pk, _) => s.(projects := s.projects - {pk})
    case Edit(_, _, _) => s
    case SetCap(_, cap) => s.(cap := cap)
  }

  /** An organization's cap and projects in the request-atomic database. */
  function View(s: State, org: nat): Serial {
    Serial(ProjectCap(s.plans, s.subs, org), Requests.ProjectKeys(s.projects, org))
  }

  /** A serial create is the create request of a member with a valid payload. */
  lemma CreateIsRequest(s: State, actor: nat, org: nat, name: string, pk: nat, txn: nat)
    requires Requests.ActiveOrg(s, actor, Some(org)).Some? && actor in s.users && name != "" && pk !in s.projects
    ensures var r := Requests.CreateProject(actor, Some(org), name, pk);
            && View(Requests.Next(s, r), org) == SerialState(View(s, org), Create(txn, pk))
            && match SerialReply(View(s, org), Create(txn, pk))
               case Created => Requests.Decide(s, r).answer == Requests.ProjectBody(pk, Project(name, actor))
               case LimitReached => Requests.Decide(s, r).answer == Requests.PaymentRequired
               case _ => false
  {
    KeysAfterInsert(s.projects, pk, org, Project(name, actor));
  }

  lemma KeysAfterInsert(projects: Table<Project>, pk: nat, org: nat, row: Project)
    ensures Requests.ProjectKeys(projects[pk := Scoped(org, row)], org) == Requests.ProjectKeys(projects, org) + {pk}
  {
  }

  lemma KeysAfterRemove(projects: Table<Project>, pk: nat, org: nat)
    ensures Requests.ProjectKeys(projects - {pk}, org) == Requests.ProjectKeys(projects, org) - {pk}
  {
  }

  /** A serial delete is the delete request of a user who may write the project if it is there. */
  lemma DeleteIsRequest(s: State, actor: nat, org: nat, pk: nat, txn: nat, since: nat)
    requires Requests.ActiveOrg(s, actor, Some(org)).Some? && actor in s.users
    requires Requests.Visible(s, org, pk) ==> Requests.CanWriteProject(s, actor, org, pk)
    ensures var r := Requests.DestroyProject(actor, Some(org), pk);
            && View(Requests.Next(s, r), org) == SerialState(View(s, org), Delete(txn, pk, since))
            && match SerialReply(View(s, org), Delete(txn, pk, since))
               case Deleted => Requests.Decide(s, r).answer == Requests.NoContent
               case Missing => Requests.Decide(s, r).answer == Requests.NotFound
               case _ => false
  {
    assert Requests.Visible(s, org, pk) <==> pk in Requests.ProjectKeys(s.projects, org);
    KeysAfterRemove(s.projects, pk, org);
    if !Requests.Visible(s, org, pk) {
      assert Requests.ProjectKeys(s.projects, org) - {pk} == Requests.ProjectKeys(s.projects, org);
    }
  }

  /** A serial edit is the update request of a user who may write the project if it is there. */
  lemma EditIsRequest(s: State, actor: nat, org: nat, pk: nat, name: string, txn: nat, since: nat)
    requires Requests.ActiveOrg(s, actor, Some(org)).Some? && actor in s.users && name != ""
    requires Requests.Visible(s, org, pk) ==> Requests.CanWriteProject(s, actor, org, pk)
    ensures var r := Requests.UpdateProject(actor, Some(org), pk, name);
            && View(Requests.Next(s, r), org) == SerialState(View(s, org), Edit(txn, pk, since))
            && match SerialReply(View(s, org), Edit(txn, pk, since))
               case Edited => Requests.Decide(s, r).answer == Requests.ProjectBody(pk, s.projects[pk].row.(name := name))
               case Missing => Requests.Decide(s, r).answer == Requests.NotFound
               case _ => false
  {
    assert Requests.Visible(s, org, pk) <==> pk in Requests.ProjectKeys(s.projects, org);
    if Requests.Visible(s, org, pk) {
      KeysAfterInsert(s.projects, pk, org, s.projects[pk].row.(name := name));
      assert Requests.ProjectKeys(s.projects, org) + {pk} == Requests.ProjectKeys(s.projects, org);
    }
  }

  function Replay(s: Serial, log: seq<Entry>): Serial {
    if log == [] then s else SerialState(Replay(s, log[..|log| - 1]), log[|log| - 1].op)
  }

  /** The entry removed the row, by its answer. */
  predicate Removal(entry: Entry, pk: nat) {
    entry.op.Delete? && entry.op.pk == pk && entry.reply == Deleted
  }

  predicate Rewrite(entry: Entry, pk: nat) {
    entry.op.Edit? && entry.op.pk == pk && entry.reply == Edited
  }

  /** From position `since` of the log on, a delete of this row has been answered as done, and no
      edit of it after that. */
  predicate Gone(log: seq<Entry>, pk: nat, since: nat) {
    if |log| <= since then false
    else if Removal(log[|log| - 1], pk) then true
    else if Rewrite(log[|log| - 1], pk) then false
    else Gone(log[..|log| - 1], pk, since)
  }

  /** The answer is the one the operation gets alone. Only a delete whose row was removed, between
      finding it and removing it, by another delete of the same row answers as if it had removed
      it too; and it does so exactly then. */
  predicate Right(now: Serial, before: seq<Entry>, entry: Entry) {
    if entry.op.Delete? && entry.reply == Deleted then
      SerialReply(now, entry.op) == if Gone(before, entry.op.pk, entry.op.since) then Missing else Deleted
    else
      entry.reply == SerialReply(now, entry.op)
  }

  predicate Legal(s: Serial, log: seq<Entry>) {
    log == [] ||
    (var before, entry := log[..|log| - 1], log[|log| - 1];
     Legal(s, before) && Right(Replay(s, before), before, entry))
  }

  /* ----- what every interleaving keeps ----- */

  /** At most one transaction holds the lock. */
  ghost predicate OneHolder(db: Db) {
    forall t, u :: t in db.txns && u in db.txns && Holds(db.txns[t]) && Holds(db.txns[u]) ==> t == u
  }

  /** A row about to be committed is not there yet, and a row that a request has found is still
      there unless it is gone by the log. */
  ghost predicate RowTrue(db: Db, t: Txn) {
    match t
    case Inserted(pk) => pk in db.used && pk !in db.projects
    case Found(pk, since, _) => since <= |db.log| && pk in db.used && (pk in db.projects <==> !Gone(db.log, pk, since))
    case _ => true
  }

  /** What the lock holder has learnt of cap and count is still true. */
  ghost predicate CapTrue(db: Db, t: Txn) {
    match t
    case CapRead(cap) => cap == db.cap
    case Cleared => !Full(|db.projects|, db.cap)
    case Inserted(_) => !Full(|db.projects|, db.cap)
    case _ => true
  }

  /** Nobody has found a row that is not committed yet. */
  ghost predicate FoundCommitted(db: Db) {
    forall t, u :: t in db.txns && u in db.txns && db.txns[t].Inserted? && db.txns[u].Found? ==>
                     db.txns[t].pk != db.txns[u].pk
  }

  ghost predicate RowInv(db: Db) {
    && db.row
    && OneHolder(db)
    && db.projects <= db.used
    && FoundCommitted(db)
    && forall t :: t in db.txns ==> RowTrue(db, db.txns[t])
  }

  ghost predicate LockInv(db: Db) {
    RowInv(db) && forall t :: t in db.txns ==> CapTrue(db, db.txns[t])
  }

  lemma OneHolderKept(db: Db, e: Event)
    requires db.row && OneHolder(db)
    ensures OneHolder(Apply(db, e))
  {
  }

  lemma FoundCommittedKept(db: Db, e: Event)
    requires RowInv(db)
    ensures FoundCommitted(Apply(db, e))
  {
    assert forall t :: t in db.txns ==> RowTrue(db, db.txns[t]);
  }

  lemma GoneNext(log: seq<Entry>, entry: Entry, pk: nat, since: nat)
    requires since <= |log|
    ensures Gone(log + [entry], pk, since) <==> Removal(entry, pk) || (!Rewrite(entry, pk) && Gone(log, pk, since))
  {
    var longer := log + [entry];
    assert longer[..|longer| - 1] == log && longer[|longer| - 1] == entry;
  }

  /** A row found stays found, as long as others do what they may. */
  lemma FoundStays(db: Db, e: Event, t: nat)
    requires RowInv(db) && t in db.txns && db.txns[t].Found? && e.txn != t
    ensures RowTrue(Apply(db, e), db.txns[t])
  {
    var x := db.txns[t];
    assert RowTrue(db, x);
    Logged(db, e);
    if Logs(db, e) {
      GoneNext(db.log, EntryOf(db, e), x.pk, x.since);
    }
  }

  /** A row about to be committed stays out: one request at a time commits one. */
  lemma InsertedStays(db: Db, e: Event, t: nat)
    requires RowInv(db) && t in db.txns && db.txns[t].Inserted? && e.txn != t
    ensures RowTrue(Apply(db, e), db.txns[t])
  {
    assert RowTrue(db, db.txns[t]);
  }

  lemma OwnRowTrue(db: Db, e: Event)
    requires RowInv(db) && e.txn in Apply(db, e).txns
    ensures RowTrue(Apply(db, e), Apply(db, e).txns[e.txn])
  {
    assert e.txn in db.txns ==> RowTrue(db, db.txns[e.txn]);
  }

  lemma RowsKept(db: Db, e: Event)
    requires RowInv(db)
    ensures var after := Apply(db, e); RowInv(after)
  {
    var after := Apply(db, e);
    OneHolderKept(db, e);
    FoundCommittedKept(db, e);
    forall t | t in after.txns
      ensures RowTrue(after, after.txns[t])
    {
      if e.txn == t {
        OwnRowTrue(db, e);
      } else {
        Undisturbed(db, e, t);
        if db.txns[t].Found? {
          FoundStays(db, e, t);
        } else if db.txns[t].Inserted? {
          InsertedStays(db, e, t);
        }
      }
    }
    assert after.projects <= after.used by {
      assert e.txn in db.txns ==> RowTrue(db, db.txns[e.txn]);
    }
  }

  /** A row is saved after it is gone, which brings it back. */
  predicate Revives(db: Db, e: Event) {
    e.SaveEdit? && e.txn in db.txns && db.txns[e.txn].Found? && db.txns[e.txn].write.Editing?
    && Gone(db.log, db.txns[e.txn].pk, db.txns[e.txn].since)
  }

  /** A row is brought back exactly when an edit saves it after a delete of it was answered since the
      edit found it, and no other edit since that. */
  lemma RevivedExactly(db: Db, e: Event)
    requires RowInv(db)
    ensures Apply(db, e).revived == db.revived + if Revives(db, e) then 1 else 0
  {
    assert e.txn in db.txns ==> RowTrue(db, db.txns[e.txn]);
  }

  /** A delete makes room, and an edit takes some only by reviving a row. */
  lemma WritesMakeRoom(db: Db, e: Event)
    requires e.Remove? || e.SaveEdit?
    ensures var after := Apply(db, e);
            after.cap == db.cap && |after.projects| <= |db.projects| + after.revived - db.revived
  {
    if e.txn in db.txns && db.txns[e.txn].Found? {
      Fewer(db.projects, db.txns[e.txn].pk);
      AtMostOneMore(db.projects, db.txns[e.txn].pk);
    }
  }

  lemma OnlyHoldersCommit(db: Db, e: Event)
    requires !e.Remove? && !e.SaveEdit? && !(e.Commit? && e.txn in db.txns && Holds(db.txns[e.txn]))
    ensures var after := Apply(db, e);
            after.cap == db.cap && after.projects == db.projects && after.revived == db.revived
  {
  }

  /** So it is for whoever holds the lock. */
  lemma OthersMakeRoom(db: Db, e: Event, t: nat)
    requires RowInv(db) && t in db.txns && Holds(db.txns[t]) && e.txn != t
    ensures var after := Apply(db, e);
            after.cap == db.cap && |after.projects| <= |db.projects| + after.revived - db.revived
  {
    if e.Remove? || e.SaveEdit? {
      WritesMakeRoom(db, e);
    } else {
      OnlyHoldersCommit(db, e);
    }
  }

  lemma OwnCapTrue(db: Db, e: Event)
    requires LockInv(db) && e.txn in Apply(db, e).txns
    ensures CapTrue(Apply(db, e), Apply(db, e).txns[e.txn])
  {
    assert e.txn in db.txns ==> CapTrue(db, db.txns[e.txn]);
  }

  lemma LockKept(db: Db, e: Event)
    requires LockInv(db) && !Revives(db, e)
    ensures var after := Apply(db, e); LockInv(after)
  {
    var after := Apply(db, e);
    RowsKept(db, e);
    RevivedExactly(db, e);
    forall t | t in after.txns
      ensures CapTrue(after, after.txns[t])
    {
      if e.txn == t {
        OwnCapTrue(db, e);
      } else {
        Undisturbed(db, e, t);
        assert CapTrue(db, db.txns[t]);
        if Holds(db.txns[t]) {
          OthersMakeRoom(db, e, t);
        }
      }
    }
  }

  lemma AtMostOneMore(projects: set<nat>, pk: nat)
    ensures |projects + {pk}| <= |projects| + if pk in projects then 0 else 1
  {
    if pk in projects {
      assert projects + {pk} == projects;
    }
  }

  lemma Fewer(projects: set<nat>, pk: nat)
    ensures |projects - {pk}| <= |projects|
  {
    if pk in projects {
      assert projects == (projects - {pk}) + {pk};
    } else {
      assert projects - {pk} == projects;
    }
  }

  /** The committed rows are those the log gives when run one operation at a time, and each
      operation answers as it does there, but for overtaken deletes. */
  ghost predicate Explained(start: Serial, db: Db) {
    Legal(start, db.log) && Replay(start, db.log) == Serial(db.cap, db.projects)
  }

  lemma Appended(start: Serial, log: seq<Entry>, entry: Entry)
    requires Legal(start, log) && Right(Replay(start, log), log, entry)
    ensures Legal(start, log + [entry])
    ensures Replay(start, log + [entry]) == SerialState(Replay(start, log), entry.op)
  {
    var longer := log + [entry];
    assert longer[..|longer| - 1] == log && longer[|longer| - 1] == entry;
  }

  /** The event makes an operation take effect, or refuses it. */
  predicate Logs(db: Db, e: Event) {
    match e
    case Count(t) => t in db.txns && db.txns[t].CapRead? && Full(|db.projects|, db.txns[t].cap)
    case Commit(t) => t in db.txns && (db.txns[t].Inserted? || db.txns[t].Saved?)
    case Find(t) => t in db.txns && db.txns[t].Finding? && db.txns[t].pk !in db.projects
    case Remove(t) => t in db.txns && db.txns[t].Found? && db.txns[t].write.Removing?
    case SaveEdit(t) => t in db.txns && db.txns[t].Found? && db.txns[t].write.Editing?
    case _ => false
  }

  function EntryOf(db: Db, e: Event): Entry
    requires Logs(db, e)
  {
    match e
    case Count(t) => Entry(Create(t, 0), LimitReached)
    case Commit(t) =>
      if db.txns[t].Inserted? then Entry(Create(t, db.txns[t].pk), Created)
      else Entry(SetCap(t, db.txns[t].cap), Done)
    case Find(t) => Entry(WriteOp(t, db.txns[t].pk, |db.log|, db.txns[t].write), Missing)
    case Remove(t) => Entry(Delete(t, db.txns[t].pk, db.txns[t].since), Deleted)
    case SaveEdit(t) => Entry(Edit(t, db.txns[t].pk, db.txns[t].since), Edited)
  }

  lemma Logged(db: Db, e: Event)
    ensures var after := Apply(db, e);
            if Logs(db, e) then after.log == db.log + [EntryOf(db, e)]
            else after.log == db.log && after.cap == db.cap && after.projects == db.projects
  {
  }

  /** What is logged is what the operation does alone in the current rows. */
  lemma LoggedRight(db: Db, e: Event)
    requires LockInv(db) && Logs(db, e) && !Revives(db, e)
    ensures var after, now := Apply(db, e), Serial(db.cap, db.projects);
            && Right(now, db.log, EntryOf(db, e))
            && SerialState(now, EntryOf(db, e).op) == Serial(after.cap, after.projects)
  {
    assert RowTrue(db, db.txns[e.txn]) && CapTrue(db, db.txns[e.txn]);
    if e.Find? {
      assert db.projects - {db.txns[e.txn].pk} == db.projects;
    } else if e.SaveEdit? {
      assert db.projects + {db.txns[e.txn].pk} == db.projects;
    }
  }

  lemma ExplainedKept(start: Serial, db: Db, e: Event)
    requires LockInv(db) && Explained(start, db) && !Revives(db, e)
    ensures Explained(start, Apply(db, e))
  {
    Logged(db, e);
    if Logs(db, e) {
      LoggedRight(db, e);
      Appended(start, db.log, EntryOf(db, e));
    }
  }

  /** A revived row has no place in the serial order. */
  lemma RevivedUnexplained(start: Serial, db: Db, e: Event)
    requires RowInv(db) && Explained(start, db) && Revives(db, e)
    ensures !Explained(start, Apply(db, e))
  {
    var x, after := db.txns[e.txn], Apply(db, e);
    assert RowTrue(db, x);
    Logged(db, e);
    assert after.log[..|after.log| - 1] == db.log;
    assert Replay(start, after.log) == Serial(db.cap, db.projects);
    assert x.pk in after.projects;
  }

  /** The entries of a request in the log. */
  function EntriesOf(log: seq<Entry>, t: nat): set<nat> {
    set i | 0 <= i < |log| && log[i].op.txn == t
  }

  /** The log holds exactly one entry of the request, with this reply. */
  ghost predicate LoggedOnce(log: seq<Entry>, t: nat, reply: Reply) {
    exists i :: EntriesOf(log, t) == {i} && log[i].reply == reply
  }

  /** A request is in the log once it takes effect or is refused, and not before; one that failed
      is there only as refused, which changes nothing. */
  ghost predicate Placed(db: Db, t: nat) {
    if t in db.txns && t in db.replies then false
    else if t in db.txns && db.txns[t].Refused? then LoggedOnce(db.log, t, LimitReached)
    else if t in db.replies && db.replies[t] != Failed then LoggedOnce(db.log, t, db.replies[t])
    else EntriesOf(db.log, t) == {} || (t in db.replies && LoggedOnce(db.log, t, LimitReached))
  }

  ghost predicate AllPlaced(db: Db) {
    forall t: nat :: Placed(db, t)
  }

  lemma EntriesAppended(log: seq<Entry>, entry: Entry, t: nat)
    ensures EntriesOf(log + [entry], t) == EntriesOf(log, t) + if entry.op.txn == t then {|log|} else {}
  {
  }

  lemma PlacedKept(db: Db, e: Event, t: nat)
    requires Placed(db, t)
    ensures Placed(Apply(db, e), t)
  {
    Logged(db, e);
    if Logs(db, e) {
      EntriesAppended(db.log, EntryOf(db, e), t);
    }
    if e.txn != t {
      Undisturbed(db, e, t);
    }
  }

  /** Another request's progress does not move this one. */
  lemma Undisturbed(db: Db, e: Event, t: nat)
    requires e.txn != t
    ensures var after := Apply(db, e);
            && (t in db.txns <==> t in after.txns) && (t in db.txns ==> after.txns[t] == db.txns[t])
            && (t in db.replies <==> t in after.replies) && (t in db.replies ==> after.replies[t] == db.replies[t])
  {
  }

  /** Where every run starts: no transaction in flight, nothing logged or answered yet. */
  predicate Idle(db: Db) {
    db.txns == map[] && db.replies == map[] && db.log == [] && db.revived == 0 && db.projects <= db.used
  }

  lemma {:induction false} RunRows(db: Db, es: seq<Event>)
    requires Idle(db) && db.row
    ensures var d := Run(db, es); RowInv(d) && AllPlaced(d)
  {
    if es == [] {
      assert forall t: nat :: EntriesOf(db.log, t) == {};
    } else {
      var init, e := es[..|es| - 1], es[|es| - 1];
      RunRows(db, init);
      var d := Run(db, init);
      RowsKept(d, e);
      forall t: nat
        ensures Placed(Apply(d, e), t)
      {
        PlacedKept(d, e, t);
      }
    }
  }

  lemma {:induction false} RunKeeps(db: Db, es: seq<Event>)
    requires Idle(db) && db.row && Run(db, es).revived == 0
    ensures var d := Run(db, es); LockInv(d) && Explained(Serial(db.cap, db.projects), d)
  {
    if es != [] {
      var init, e := es[..|es| - 1], es[|es| - 1];
      var d := Run(db, init);
      RunRows(db, init);
      RevivedExactly(d, e);
      RunKeeps(db, init);
      LockKept(d, e);
      ExplainedKept(Serial(db.cap, db.projects), d, e);
    }
  }

  /** Linearizability: after any interleaving of creates, deletes, edits and plan updates that revives
      no row, the committed projects and cap are those of a serial order of the operations.
      Every answer is the one given there, except that a delete answers as done, and not that
      there is no such project, exactly when the project is gone since it found it. In every
      interleaving an answered request stands in the order exactly once, and one that failed
      nowhere, or once as refused. */
  lemma Linearizable(db: Db, es: seq<Event>)
    requires Idle(db) && db.row
    ensures var d, start := Run(db, es), Serial(db.cap, db.projects);
            && (d.revived == 0 ==> Legal(start, d.log) && Replay(start, d.log) == Serial(d.cap, d.projects))
            && forall t :: t in d.replies ==>
                 || LoggedOnce(d.log, t, d.replies[t])
                 || (d.replies[t] == Failed && (EntriesOf(d.log, t) == {} || LoggedOnce(d.log, t, LimitReached)))
  {
    RunRows(db, es);
    var d := Run(db, es);
    if d.revived == 0 {
      RunKeeps(db, es);
    }
    forall t | t in d.replies
      ensures || LoggedOnce(d.log, t, d.replies[t])
              || (d.replies[t] == Failed && (EntriesOf(d.log, t) == {} || LoggedOnce(d.log, t, LimitReached)))
    {
      assert Placed(d, t);
    }
  }

  /** The log explains the committed rows before the run and after each of its statements. */
  ghost predicate ExplainedThroughout(start: Serial, db: Db, es: seq<Event>) {
    Explained(start, Run(db, es)) && (es == [] || ExplainedThroughout(start, db, es[..|es| - 1]))
  }

  /** The order in which requests take effect explains the rows throughout if and only if no edit
      revives a row. */
  lemma {:induction false} SerialExactly(db: Db, es: seq<Event>)
    requires Idle(db) && db.row
    ensures ExplainedThroughout(Serial(db.cap, db.projects), db, es) <==> Run(db, es).revived == 0
  {
    if es != [] {
      var init, e := es[..|es| - 1], es[|es| - 1];
      var start, d := Serial(db.cap, db.projects), Run(db, init);
      SerialExactly(db, init);
      RunRows(db, init);
      RevivedExactly(d, e);
      if d.revived == 0 {
        RunKeeps(db, init);
        if Revives(d, e) {
          RevivedUnexplained(start, d, e);
        } else {
          RunKeeps(db, es);
        }
      }
    }
  }

  predicate FoundAt(x: Txn, pk: nat, since: nat) {
    x.Found? && x.pk == pk && x.since == since
  }

  /** The serial order respects time: an entry is added while its request is in flight, and what
      a request has found counts as gone only by entries added after it found it. */
  lemma LoggedInFlight(db: Db, e: Event, i: nat)
    requires i < |Apply(db, e).log|
    ensures var entry := Apply(db, e).log[i];
            || (i < |db.log| && db.log[i] == entry)
            || (entry.op.txn in db.txns && i == |db.log|
                && ((entry.op.Delete? && entry.reply == Deleted) || (entry.op.Edit? && entry.reply == Edited) ==>
                      FoundAt(db.txns[entry.op.txn], entry.op.pk, entry.op.since)))
  {
    Logged(db, e);
  }

  /* ----- the cap ----- */

  predicate NoUpdates(es: seq<Event>) {
    forall e :: e in es ==> !e.BeginUpdate?
  }

  /** A request past the count has room for its row, but for revived ones. */
  ghost predicate HasRoom(db: Db, cap: int, t: Txn) {
    match t
    case CapRead(read) => read == Some(cap)
    case Cleared => |db.projects| + 1 <= cap + db.revived
    case Inserted(_) => |db.projects| + 1 <= cap + db.revived
    case Updating(_) => false
    case Saved(_) => false
    case _ => true
  }

  ghost predicate WithinCap(db: Db, cap: int) {
    && db.cap == Some(cap) && |db.projects| <= cap + db.revived
    && forall t :: t in db.txns ==> HasRoom(db, cap, db.txns[t])
  }

  lemma OwnRoom(db: Db, cap: int, e: Event)
    requires RowInv(db) && WithinCap(db, cap) && !e.BeginUpdate?
    ensures e.txn in Apply(db, e).txns ==> HasRoom(Apply(db, e), cap, Apply(db, e).txns[e.txn])
  {
    assert e.txn in db.txns ==> HasRoom(db, cap, db.txns[e.txn]);
  }

  lemma CommitStays(db: Db, cap: int, t: nat)
    requires WithinCap(db, cap) && t in db.txns
    ensures var after := Apply(db, Commit(t));
            after.cap == Some(cap) && |after.projects| <= cap + after.revived
  {
    assert HasRoom(db, cap, db.txns[t]);
    if db.txns[t].Inserted? {
      AtMostOneMore(db.projects, db.txns[t].pk);
    }
  }

  lemma CountStays(db: Db, cap: int, e: Event)
    requires WithinCap(db, cap)
    ensures var after := Apply(db, e);
            after.cap == Some(cap) && |after.projects| <= cap + after.revived
  {
    if e.Remove? || e.SaveEdit? {
      WritesMakeRoom(db, e);
    } else if e.Commit? && e.txn in db.txns {
      CommitStays(db, cap, e.txn);
    } else {
      OnlyHoldersCommit(db, e);
    }
  }

  lemma CapStep(db: Db, cap: int, e: Event)
    requires RowInv(db) && WithinCap(db, cap) && !e.BeginUpdate?
    ensures var after := Apply(db, e); WithinCap(after, cap)
  {
    OwnRoom(db, cap, e);
    CountStays(db, cap, e);
    forall t | t in Apply(db, e).txns && t != e.txn
      ensures HasRoom(Apply(db, e), cap, db.txns[t]) && Apply(db, e).txns[t] == db.txns[t]
    {
      Undisturbed(db, e, t);
      assert HasRoom(db, cap, db.txns[t]);
      if Holds(db.txns[t]) {
        OthersMakeRoom(db, e, t);
      }
    }
  }

  /** While the plan stays the same, the projects exceed the cap by at most the rows that edits
      have revived, so not at all where none is. */
  lemma {:induction false} CapHolds(db: Db, es: seq<Event>)
    requires Idle(db) && db.row && NoUpdates(es) && db.cap.Some? && |db.projects| <= db.cap.value
    ensures var d := Run(db, es); WithinCap(d, db.cap.value) && |d.projects| <= db.cap.value + d.revived
  {
    if es != [] {
      var init, e := es[..|es| - 1], es[|es| - 1];
      assert forall x :: x in init ==> x in es;
      CapHolds(db, init);
      RunRows(db, init);
      CapStep(Run(db, init), db.cap.value, e);
    }
  }

  ghost predicate Reaches(db: Db, d: Db) {
    exists es :: Run(db, es) == d
  }

  lemma OneMore(db: Db, d: Db, e: Event)
    requires Reaches(db, d)
    ensures Reaches(db, Apply(d, e))
  {
    var es :| Run(db, es) == d;
    assert (es + [e])[..|es|] == es;
    assert Run(db, es + [e]) == Apply(d, e);
  }

  function Single(): Db {
    Db(true, None, {1}, {1}, map[], map[], [], 0)
  }

  /** Begins a delete or an edit and finds its row. */
  lemma FindsRow(db: Db, d: Db, t: nat, pk: nat, write: Write)
    requires Reaches(db, d) && !Known(d, t) && pk in d.projects
    ensures Reaches(db, Move(d, t, Found(pk, |d.log|, write)))
  {
    if write.Removing? {
      OneMore(db, d, BeginDelete(t, pk));
    } else {
      OneMore(db, d, BeginEdit(t, pk));
    }
    var begun := Move(d, t, Finding(pk, write));
    OneMore(db, begun, Find(t));
    assert begun.txns[t := Found(pk, |d.log|, write)] == d.txns[t := Found(pk, |d.log|, write)];
  }

  /** Two deletes of one project can both answer that they removed it, as no serial order does. */
  lemma DeletedTwice()
    ensures exists d :: Reaches(Single(), d) && d.projects == {} && d.replies == map[8 := Deleted, 9 := Deleted]
  {
    var d0 := Single();
    assert Run(d0, []) == d0;
    FindsRow(d0, d0, 8, 1, Removing);
    var d1 := Move(d0, 8, Found(1, 0, Removing));
    FindsRow(d0, d1, 9, 1, Removing);
    var d2 := Move(d1, 9, Found(1, 0, Removing));
    OneMore(d0, d2, Remove(8));
    var d3 := Apply(d2, Remove(8));
    OneMore(d0, d3, Remove(9));
    assert Apply(d3, Remove(9)).replies == map[8 := Deleted, 9 := Deleted];
  }

  /** Three projects where three are allowed. */
  function AtCap(): Db {
    Db(true, Some(3), {1, 2, 3}, {1, 2, 3}, map[], map[], [], 0)
  }

  /** An edit finds project 3, a delete removes it, a create takes the room, and the edit saves:
      four projects, and 3 is back after its delete was answered as done. */
  lemma Revived()
    ensures exists d :: && Reaches(AtCap(), d) && d.projects == {1, 2, 3, 4} && d.revived == 1
                        && d.replies == map[7 := Edited, 8 := Deleted, 9 := Created]
  {
    var d0, d4 := AtCap(), Replaced();
    ReplacedReached();
    OneMore(d0, d4, SaveEdit(7));
    var d5 := Apply(d4, SaveEdit(7));
    assert d5.projects == {1, 2, 3, 4} && d5.replies == map[7 := Edited, 8 := Deleted, 9 := Created];
  }

  /** Project 3 has made way for 4, and the edit of 3 is still under way. */
  function Replaced(): Db {
    Db(true, Some(3), {1, 2, 4}, {1, 2, 3, 4}, map[7 := Found(3, 0, Editing)], map[8 := Deleted, 9 := Created],
       [Entry(Delete(8, 3, 0), Deleted), Entry(Create(9, 4), Created)], 0)
  }

  function Removed(): Db {
    Db(true, Some(3), {1, 2}, {1, 2, 3}, map[7 := Found(3, 0, Editing)], map[8 := Deleted],
       [Entry(Delete(8, 3, 0), Deleted)], 0)
  }

  lemma RemovedReached()
    ensures Reaches(AtCap(), Removed())
  {
    var d0 := AtCap();
    assert Run(d0, []) == d0;
    FindsRow(d0, d0, 7, 3, Editing);
    var d1 := Move(d0, 7, Found(3, 0, Editing));
    FindsRow(d0, d1, 8, 3, Removing);
    var d2 := Move(d1, 8, Found(3, 0, Removing));
    OneMore(d0, d2, Remove(8));
    assert d2.txns - {8} == d1.txns && d2.projects - {3} == {1, 2};
  }

  lemma ReplacedReached()
    ensures Reaches(AtCap(), Replaced())
  {
    RemovedReached();
    var d := Removed();
    assert |d.projects| == 2;
    Lets(AtCap(), d, 9, 4);
    assert d.projects + {4} == {1, 2, 4} && d.used + {4} == {1, 2, 3, 4};
  }

  /** A create that finds room comes through when no other holds the lock. */
  lemma Lets(db: Db, d: Db, t: nat, pk: nat)
    requires Reaches(db, d) && d.row && !Known(d, t) && pk !in d.used && Free(d) && !Full(|d.projects|, d.cap)
    ensures Reaches(db, d.(projects := d.projects + {pk}, used := d.used + {pk}, replies := d.replies[t := Created],
                           log := d.log + [Entry(Create(t, pk), Created)]))
  {
    Locks(db, d, t);
    Clears(db, d, t);
    var cleared := Move(d, t, Cleared);
    OneMore(db, cleared, Insert(t, pk));
    var inserted := Move(d, t, Inserted(pk)).(used := d.used + {pk});
    assert cleared.txns[t := Inserted(pk)] == inserted.txns;
    OneMore(db, inserted, Commit(t));
    assert inserted.txns - {t} == d.txns;
  }

  lemma Locks(db: Db, d: Db, t: nat)
    requires Reaches(db, d) && !Known(d, t) && Free(d)
    ensures Reaches(db, Move(d, t, Locked))
  {
    OneMore(db, d, Arrive(t));
    var arrived := Move(d, t, Arrived);
    OneMore(db, arrived, Lock(t));
    assert arrived.txns[t := Locked] == Move(d, t, Locked).txns;
  }

  lemma Clears(db: Db, d: Db, t: nat)
    requires Reaches(db, Move(d, t, Locked)) && d.row && !Full(|d.projects|, d.cap)
    ensures Reaches(db, Move(d, t, Cleared))
  {
    var locked, read := Move(d, t, Locked), Move(d, t, CapRead(d.cap));
    OneMore(db, locked, ReadCap(t));
    assert locked.txns[t := CapRead(d.cap)] == read.txns;
    OneMore(db, read, Count(t));
    assert read.txns[t := Cleared] == Move(d, t, Cleared).txns;
  }

  /** An organization without a subscription row, with two projects and two creates waiting. */
  function Racing(): Db {
    Db(false, None, {1, 2}, {1, 2}, map[8 := Arrived, 9 := Arrived], map[], [], 0)
  }

  /** Without the row, a create can lock, read the built-in cap and count at any time. */
  lemma Passes(db: Db, d: Db, t: nat)
    requires Reaches(db, d) && !d.row && t in d.txns && d.txns[t].Arrived? && |d.projects| < 3
    ensures Reaches(db, Move(d, t, Cleared))
  {
    OneMore(db, d, Lock(t));
    var locked := Move(d, t, Locked);
    OneMore(db, locked, ReadCap(t));
    var read := Move(locked, t, CapRead(DEFAULT_CAP));
    OneMore(db, read, Count(t));
    assert Move(read, t, Cleared) == Move(d, t, Cleared);
  }

  /** Once past the count, a create inserts its row and commits. */
  lemma Lands(db: Db, d: Db, t: nat, pk: nat) returns (landed: Db)
    requires Reaches(db, d) && t in d.txns && d.txns[t].Cleared? && pk !in d.used
    ensures Reaches(db, landed) && landed.projects == d.projects + {pk} && landed.used == d.used + {pk}
    ensures landed.txns == d.txns - {t}
  {
    OneMore(db, d, Insert(t, pk));
    landed := Apply(Apply(d, Insert(t, pk)), Commit(t));
    OneMore(db, Apply(d, Insert(t, pk)), Commit(t));
  }

  /** Then the lock holds nobody back: both creates pass the count of two projects where three are
      allowed, and the organization ends with four. */
  lemma NoRowNoLock()
    ensures exists d :: Reaches(Racing(), d) && d.projects == {1, 2, 3, 4}
  {
    var d0 := Racing();
    assert Run(d0, []) == d0;
    assert |d0.projects| == 2;
    Passes(d0, d0, 8);
    Passes(d0, Move(d0, 8, Cleared), 9);
    var d3 := Lands(d0, Move(Move(d0, 8, Cleared), 9, Cleared), 8, 3);
    var d4 := Lands(d0, d3, 9, 4);
    assert d4.projects == {1, 2, 3, 4};
  }
}
