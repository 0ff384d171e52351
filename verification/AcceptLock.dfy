/** Acceptances interleaved statement by statement: each locks the invitation of its token, reads
    it, decides, writes and commits. */
module AcceptLock {
  import opened Models
  import Requests

  /** `email` is the case-folded email the invitation is for. */
  datatype Row = Row(email: string, expiresAt: int, status: Status)

  /** How far an acceptance by the user with `email` has come. */
  datatype Txn =
    | Arrived(token: nat, email: string)
    | Read(token: nat, email: string, row: Row)
    | Rejecting(token: nat, email: string)
    | Marking(token: nat, email: string, row: Row)
    | Consuming(token: nat, email: string, row: Row, at: int)

  datatype Reply = Joined | Invalid | HasExpired

  /** A token consumed by a user at a time. */
  datatype Use = Use(txn: nat, token: nat, email: string, at: int)

  /** The committed invitations by token, the acceptances in flight, the clock, the answers so
      far, and the uses of tokens that committed, in order. */
  datatype Db = Db(invites: map<nat, Row>, txns: map<nat, Txn>, now: int,
                   replies: map<nat, Reply>, uses: seq<Use>, tokens: set<nat>)

  datatype Event =
    | Invite(token: nat, email: string, expiresAt: int)
    | Cascade(token: nat)
    | Tick(seconds: nat)
    | Arrive(txn: nat, token: nat, email: string)
    | Lock(txn: nat)
    | Decide(txn: nat)
    | Commit(txn: nat)
    | Crash(txn: nat)

  predicate Holds(t: Txn, token: nat) {
    t.token == token && !t.Arrived?
  }

  predicate Free(db: Db, token: nat) {
    forall t :: t in db.txns ==> !Holds(db.txns[t], token)
  }

  function Move(db: Db, t: nat, to: Txn): Db {
    db.(txns := db.txns[t := to])
  }

  function Answer(db: Db, t: nat, reply: Reply): Db {
    db.(txns := db.txns - {t}, replies := db.replies[t := reply])
  }

  /** The decision is taken on the row as it was read under the lock. */
  function Decision(now: int, x: Txn): Txn
    requires x.Read?
  {
    if x.row.status != Pending then Rejecting(x.token, x.email)
    else if now >= x.row.expiresAt then Marking(x.token, x.email, x.row.(status := Expired))
    else if x.email != x.row.email then Rejecting(x.token, x.email)
    else Consuming(x.token, x.email, x.row.(status := Accepted), now)
  }

  /** What the acceptances see of an invitation. */
  function Seen(row: Models.Invitation): Row {
    Row(Fold(row.email), row.expiresAt, row.status)
  }

  /** Run alone, the decision and the row it writes are those of the accept request. */
  lemma DecisionIsRequest(s: State, actor: nat, token: nat, now: int, pk: nat, key: nat)
    requires actor in s.users && First(Requests.TokenKeys(s.invites, token)) == Some(key)
    ensures var d, row := Requests.DoAccept(s, actor, token, now, pk), s.invites[key].row;
            match Decision(now, Read(token, Fold(s.users[actor]), Seen(row)))
            case Rejecting(_, _) =>
              d == Requests.Decision(Requests.Nothing, Requests.BadRequest(Requests.InvalidInvitation))
            case Marking(_, _, spent) =>
              d.change.MarkedExpired? && d.change.key == key && Seen(d.change.spent) == spent
              && d.answer == Requests.BadRequest(Requests.ExpiredInvitation)
            case Consuming(_, _, spent, _) =>
              (d.change.Joined? || d.change.Rejoined?) && d.change.key == key && Seen(d.change.spent) == spent
              && d.answer.MemberBody?
            case _ => false
  {
  }

  function CommitTxn(db: Db, t: nat): Db
    requires t in db.txns
  {
    match db.txns[t]
    case Rejecting(_, _) => Answer(db, t, Invalid)
    case Marking(token, _, row) => Answer(db, t, HasExpired).(invites := db.invites[token := row])
    case Consuming(token, email, row, at) =>
      Answer(db, t, Joined).(invites := db.invites[token := row], uses := db.uses + [Use(t, token, email, at)])
    case _ => db
  }

  /** One statement. A row that is locked is neither deleted nor locked again: that waits. */
  function Apply(db: Db, e: Event): Db {
    match e
    case Invite(token, email, expiresAt) =>
      if token in db.tokens then db
      else db.(invites := db.invites[token := Row(email, expiresAt, Pending)], tokens := db.tokens + {token})
    case Cascade(token) => if Free(db, token) then db.(invites := db.invites - {token}) else db
    case Tick(seconds) => db.(now := db.now + seconds)
    case Arrive(t, token, email) =>
      if t in db.txns || t in db.replies then db else Move(db, t, Arrived(token, email))
    case Lock(t) =>
      if t in db.txns && db.txns[t].Arrived? then
        var x := db.txns[t];
        if x.token !in db.invites then Answer(db, t, Invalid)
        else if Free(db, x.token) then Move(db, t, Read(x.token, x.email, db.invites[x.token]))
        else db
      else db
    case Decide(t) => if t in db.txns && db.txns[t].Read? then Move(db, t, Decision(db.now, db.txns[t])) else db
    case Commit(t) => if t in db.txns then CommitTxn(db, t) else db
    case Crash(t) => db.(txns := db.txns - {t})
  }

  function Run(db: Db, es: seq<Event>): Db {
    if es == [] then db else Apply(Run(db, es[..|es| - 1]), es[|es| - 1])
  }

  /* ----- what every interleaving keeps ----- */

  /** At most one transaction holds the lock of a token. */
  ghost predicate OneHolder(db: Db) {
    forall t, u | t in db.txns && u in db.txns && !db.txns[t].Arrived? && !db.txns[u].Arrived?
                  && db.txns[t].token == db.txns[u].token :: t == u
  }

  /** What a holder has read is still what is committed, and it writes only what it decided. */
  ghost predicate Current(db: Db, x: Txn) {
    match x
    case Read(token, _, row) => token in db.invites && row == db.invites[token]
    case Marking(token, _, row) =>
      && token in db.invites && db.invites[token].status == Pending
      && row == db.invites[token].(status := Expired) && db.now >= row.expiresAt
    case Consuming(token, email, row, at) =>
      && token in db.invites && db.invites[token].status == Pending
      && row == db.invites[token].(status := Accepted) && email == row.email && at < row.expiresAt && at <= db.now
    case _ => true
  }

  ghost predicate LockInv(db: Db) {
    && OneHolder(db)
    && (forall t :: t in db.txns ==> Current(db, db.txns[t]))
    && db.invites.Keys <= db.tokens
  }

  /** The use is what made the invitation ACCEPTED, by its addressee and before it expired. */
  ghost predicate Warranted(db: Db, u: Use) {
    && u.token in db.tokens
    && (u.token in db.invites ==>
          && db.invites[u.token].status == Accepted
          && u.email == db.invites[u.token].email
          && u.at < db.invites[u.token].expiresAt)
  }

  ghost predicate UsesInv(db: Db) {
    && (forall i, j :: 0 <= i < j < |db.uses| ==> db.uses[i].token != db.uses[j].token)
    && (forall u :: u in db.uses ==> Warranted(db, u))
    && (forall token :: token in db.invites && db.invites[token].status == Accepted ==>
          exists u :: u in db.uses && u.token == token)
  }

  /** A request was told it joined exactly when its use of the token committed. */
  ghost predicate RepliesInv(db: Db) {
    && (forall u :: u in db.uses ==> u.txn in db.replies && db.replies[u.txn] == Joined)
    && (forall t :: t in db.replies && db.replies[t] == Joined ==> exists u :: u in db.uses && u.txn == t)
  }

  lemma CurrentKept(db: Db, e: Event, t: nat)
    requires LockInv(db) && t in Apply(db, e).txns
    ensures Current(Apply(db, e), Apply(db, e).txns[t])
  {
    assert t in db.txns ==> Current(db, db.txns[t]);
    if t in db.txns && Apply(db, e).txns[t] == db.txns[t] && !db.txns[t].Arrived? {
      RowStays(db, e, t);
    }
  }

  /** Nobody else writes a row that is locked. */
  lemma RowStays(db: Db, e: Event, t: nat)
    requires LockInv(db) && t in db.txns && !db.txns[t].Arrived? && Apply(db, e).txns.Keys >= {t}
    ensures var token := db.txns[t].token;
            token in db.invites ==> token in Apply(db, e).invites && Apply(db, e).invites[token] == db.invites[token]
    ensures db.now <= Apply(db, e).now
  {
    assert Holds(db.txns[t], db.txns[t].token);
    if e.Commit? && e.txn in db.txns {
      assert Current(db, db.txns[e.txn]);
    }
  }

  lemma OneHolderKept(db: Db, e: Event)
    requires OneHolder(db)
    ensures OneHolder(Apply(db, e))
  {
  }

  lemma LockKept(db: Db, e: Event)
    requires LockInv(db)
    ensures var after := Apply(db, e); LockInv(after)
  {
    OneHolderKept(db, e);
    forall t | t in Apply(db, e).txns
      ensures Current(Apply(db, e), Apply(db, e).txns[t])
    {
      CurrentKept(db, e, t);
    }
    assert Apply(db, e).invites.Keys <= Apply(db, e).tokens by {
      if e.Commit? && e.txn in db.txns {
        assert Current(db, db.txns[e.txn]);
      }
    }
  }

  /** An invitation keeps its email and expiry, and its status moves only from PENDING to
      ACCEPTED or EXPIRED: a settled one never changes again. */
  ghost predicate Advances(before: Row, after: Row) {
    || after == before
    || (before.status == Pending && after == before.(status := after.status) && after.status in {Accepted, Expired})
  }

  lemma StatusMoves(db: Db, e: Event, token: nat)
    requires LockInv(db) && token in db.invites
    ensures token in Apply(db, e).invites ==> Advances(db.invites[token], Apply(db, e).invites[token])
    ensures token in db.tokens && db.tokens <= Apply(db, e).tokens
  {
    if e.Commit? && e.txn in db.txns {
      assert Current(db, db.txns[e.txn]);
    }
  }

  /** The list of uses grows by the use a committing transaction stands for, or not at all. */
  lemma UsesGrow(db: Db, e: Event)
    ensures var before, after := db.uses, Apply(db, e).uses;
            if e.Commit? && e.txn in db.txns && db.txns[e.txn].Consuming? then
              var x := db.txns[e.txn];
              after == before + [Use(e.txn, x.token, x.email, x.at)]
            else after == before
  {
  }

  lemma ConsumptionKeepsUses(db: Db, t: nat)
    requires LockInv(db) && UsesInv(db) && t in db.txns && db.txns[t].Consuming?
    ensures var after := Apply(db, Commit(t)); UsesInv(after)
  {
    var x, after := db.txns[t], Apply(db, Commit(t));
    var u := Use(t, x.token, x.email, x.at);
    assert Current(db, x);
    assert after.uses == db.uses + [u];
    assert forall v :: v in db.uses ==> Warranted(db, v) && v.token != x.token;
    assert u in after.uses && forall v :: v in db.uses ==> v in after.uses;
  }

  lemma UsesKept(db: Db, e: Event)
    requires LockInv(db) && UsesInv(db)
    ensures var after := Apply(db, e); UsesInv(after)
  {
    UsesGrow(db, e);
    if e.Commit? && e.txn in db.txns {
      assert Current(db, db.txns[e.txn]);
      if db.txns[e.txn].Consuming? {
        ConsumptionKeepsUses(db, e.txn);
      }
    }
  }

  lemma AnswersStay(db: Db, e: Event, t: nat)
    requires t !in db.txns
    ensures t in db.replies ==> t in Apply(db, e).replies && Apply(db, e).replies[t] == db.replies[t]
    ensures t in Apply(db, e).replies ==> t in db.replies
  {
  }

  lemma AnsweredIsDone(db: Db, e: Event)
    requires forall t :: t in db.txns ==> t !in db.replies
    ensures forall t :: t in Apply(db, e).txns ==> t !in Apply(db, e).replies
  {
  }

  lemma AnswerGiven(db: Db, e: Event, t: nat)
    requires t in db.txns && t !in db.replies
    ensures t in Apply(db, e).replies && Apply(db, e).replies[t] == Joined <==> e == Commit(t) && db.txns[t].Consuming?
  {
  }

  lemma RepliesKept(db: Db, e: Event)
    requires RepliesInv(db) && (forall t :: t in db.txns ==> t !in db.replies)
    ensures var after := Apply(db, e); RepliesInv(after)
  {
    var after := Apply(db, e);
    UsesGrow(db, e);
    forall u | u in after.uses
      ensures u.txn in after.replies && after.replies[u.txn] == Joined
    {
      if u in db.uses {
        AnswersStay(db, e, u.txn);
      } else {
        AnswerGiven(db, e, u.txn);
      }
    }
    forall t | t in after.replies && after.replies[t] == Joined
      ensures exists u :: u in after.uses && u.txn == t
    {
      if t in db.txns {
        AnswerGiven(db, e, t);
        var x := db.txns[t];
        assert Use(t, x.token, x.email, x.at) in after.uses;
      } else {
        AnswersStay(db, e, t);
        var u :| u in db.uses && u.txn == t;
        assert u in after.uses;
      }
    }
  }

  /** A run starts with invitations all pending and nothing in flight. */
  predicate Idle(db: Db) {
    && db.txns == map[] && db.replies == map[] && db.uses == [] && db.invites.Keys <= db.tokens
    && forall token :: token in db.invites ==> db.invites[token].status == Pending
  }

  lemma {:induction false} RunKeeps(db: Db, es: seq<Event>)
    requires Idle(db)
    ensures var d := Run(db, es);
            LockInv(d) && UsesInv(d) && RepliesInv(d) && forall t :: t in d.txns ==> t !in d.replies
  {
    if es != [] {
      var init, e := es[..|es| - 1], es[|es| - 1];
      RunKeeps(db, init);
      LockKept(Run(db, init), e);
      UsesKept(Run(db, init), e);
      RepliesKept(Run(db, init), e);
      AnsweredIsDone(Run(db, init), e);
    }
  }

  /** Under any interleaving each token is consumed at most once, every ACCEPTED invitation was
      consumed by its addressee strictly before it expired, and the requests that were told
      they joined are exactly those that consumed a token. */
  lemma ConsumedOnce(db: Db, es: seq<Event>)
    requires Idle(db)
    ensures var d := Run(db, es);
            && (forall i, j :: 0 <= i < j < |d.uses| ==> d.uses[i].token != d.uses[j].token)
            && (forall token :: token in d.invites && d.invites[token].status == Accepted ==>
                  exists u :: u in d.uses && u.token == token && u.email == d.invites[token].email
                              && u.at < d.invites[token].expiresAt)
            && (forall t :: t in d.replies && d.replies[t] == Joined <==> exists u :: u in d.uses && u.txn == t)
  {
    RunKeeps(db, es);
    var d := Run(db, es);
    forall token | token in d.invites && d.invites[token].status == Accepted
      ensures exists u :: u in d.uses && u.token == token && u.email == d.invites[token].email
                          && u.at < d.invites[token].expiresAt
    {
      var u :| u in d.uses && u.token == token;
      assert Warranted(d, u);
    }
  }

  lemma SettledStep(db: Db, e: Event, token: nat, row: Row)
    requires LockInv(db) && row.status != Pending && token in db.tokens
    requires token in db.invites ==> db.invites[token] == row
    ensures token in Apply(db, e).tokens
    ensures token in Apply(db, e).invites ==> Apply(db, e).invites[token] == row
  {
    if token in db.invites {
      StatusMoves(db, e, token);
    } else if e.Commit? && e.txn in db.txns {
      assert Current(db, db.txns[e.txn]);
    }
  }

  lemma RunAppend(db: Db, es: seq<Event>, more: seq<Event>)
    requires more != []
    ensures var init := es + more[..|more| - 1];
            Run(db, es + more) == Apply(Run(db, init), more[|more| - 1])
  {
    assert (es + more)[..|es + more| - 1] == es + more[..|more| - 1];
  }

  ghost predicate StillSettled(d: Db, token: nat, row: Row) {
    token in d.tokens && (token in d.invites ==> d.invites[token] == row)
  }

  /** A status once settled stays, over any continuation of a run, as long as the row exists. */
  lemma {:induction false} SettledStays(db: Db, es: seq<Event>, more: seq<Event>, token: nat)
    requires Idle(db) && token in Run(db, es).invites && Run(db, es).invites[token].status != Pending
    ensures StillSettled(Run(db, es + more), token, Run(db, es).invites[token])
    decreases |more|
  {
    if more == [] {
      assert es + more == es;
      RunKeeps(db, es);
    } else {
      var init, e := more[..|more| - 1], more[|more| - 1];
      SettledStays(db, es, init, token);
      RunAppend(db, es, more);
      RunKeeps(db, es + init);
      SettledStep(Run(db, es + init), e, token, Run(db, es).invites[token]);
    }
  }

  /** A request that was told the invitation has expired leaves it marked EXPIRED. */
  lemma ExpiredMarkPersists(db: Db, e: Event)
    requires LockInv(db) && e.Commit? && e.txn in db.txns && db.txns[e.txn].Marking?
    ensures var after := Apply(db, e);
            && after.replies[e.txn] == HasExpired
            && after.invites[db.txns[e.txn].token].status == Expired
            && after.invites[db.txns[e.txn].token].expiresAt <= after.now
            && after.uses == db.uses
  {
    assert Current(db, db.txns[e.txn]);
  }
}
