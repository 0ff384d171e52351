/** Password-reset tokens: signed values that carry a fingerprint of the password hash and the
    last login, so that using the account makes earlier tokens worthless. */
module ResetTokens {
  import opened Models

  datatype Account = Account(password: string, lastLogin: Option<int>, active: bool)

  /** A signed payload; `at` is the signing time. */
  datatype Token = Token(uid: nat, fp: string, at: int)

  /** The hash of user id, password hash and last login. */
  type Fingerprint = (nat, string, Option<int>) -> string

  ghost predicate Injective(fp: Fingerprint) {
    forall u, p, l, v, q, m :: fp(u, p, l) == fp(v, q, m) ==> u == v && p == q && l == m
  }

  /** The accounts, the tokens signed so far, and the confirmations in flight: requests that have
      read and validated their token and have not stored the new password yet. `begun` are the
      numbers of all confirmations that ever were in flight, `hashes` the password hashes ever
      stored and `clock` the time of the latest login. */
  datatype AuthState = AuthState(users: map<nat, Account>, issued: set<Token>, validated: map<nat, Token>, begun: set<nat>,
                                 hashes: set<string>, clock: int, maxAge: int)

  /** A confirmation is two statements, with nothing locked in between. `strong` says that the new
      password passes the validators. */
  datatype Event =
    | Register(uid: nat, hash: string)
    | Request(uid: nat, now: int)
    | Login(uid: nat, now: int)
    | Validate(txn: nat, token: Token, strong: bool, now: int)
    | Save(txn: nat, hash: string)
    | Abandon(txn: nat)

  function Current(fp: Fingerprint, s: AuthState, uid: nat): string
    requires uid in s.users
  {
    fp(uid, s.users[uid].password, s.users[uid].lastLogin)
  }

  /** A token reads back as its user: signed here, not too old, of a user that exists, and with
      that user's fingerprint of now. */
  predicate Reads(fp: Fingerprint, s: AuthState, token: Token, now: int) {
    && token in s.issued && now - token.at <= s.maxAge
    && token.uid in s.users && token.fp == Current(fp, s, token.uid)
  }

  predicate Passes(fp: Fingerprint, s: AuthState, e: Event) {
    e.Validate? && e.txn !in s.begun && Reads(fp, s, e.token, e.now) && e.strong
  }

  /** The event stores a new password for this token, and its request is answered as done. */
  predicate Redeems(s: AuthState, e: Event, token: Token) {
    e.Save? && e.txn in s.validated && s.validated[e.txn] == token
  }

  function SignedFor(fp: Fingerprint, s: AuthState, uid: nat, now: int): Token
    requires uid in s.users
  {
    Token(uid, Current(fp, s, uid), now)
  }

  function SetPassword(s: AuthState, uid: nat, hash: string): AuthState {
    if uid in s.users then
      s.(users := s.users[uid := s.users[uid].(password := hash)], hashes := s.hashes + {hash})
    else s
  }

  function Apply(fp: Fingerprint, s: AuthState, e: Event): AuthState {
    match e
    case Register(uid, hash) =>
      if uid in s.users then s
      else s.(users := s.users[uid := Account(hash, None, true)], hashes := s.hashes + {hash})
    case Request(uid, now) =>
      if uid in s.users && s.users[uid].active then s.(issued := s.issued + {SignedFor(fp, s, uid, now)}) else s
    case Login(uid, now) =>
      if uid in s.users && s.users[uid].active then
        s.(users := s.users[uid := s.users[uid].(lastLogin := Some(now))], clock := now)
      else s
    case Validate(txn, token, _, _) =>
      if Passes(fp, s, e) then s.(validated := s.validated[txn := token], begun := s.begun + {txn}) else s
    case Save(txn, hash) =>
      if txn in s.validated then SetPassword(s, s.validated[txn].uid, hash).(validated := s.validated - {txn}) else s
    case Abandon(txn) => s.(validated := s.validated - {txn})
  }

  function Run(fp: Fingerprint, s: AuthState, es: seq<Event>): AuthState {
    if es == [] then s else Apply(fp, Run(fp, s, es[..|es| - 1]), es[|es| - 1])
  }

  lemma RunOfTwo(fp: Fingerprint, s: AuthState, e: Event, f: Event)
    ensures Run(fp, s, [e, f]) == Apply(fp, Apply(fp, s, e), f)
  {
    assert [e, f][..1] == [e] && [e][..0] == [];
    assert Run(fp, s, [e]) == Apply(fp, Run(fp, s, []), e);
  }

  /** Hashing is salted, so a new hash was never stored before, and login times increase. */
  predicate Fair(s: AuthState, e: Event) {
    match e
    case Register(_, hash) => hash !in s.hashes
    case Login(_, now) => now > s.clock
    case Save(_, hash) => hash !in s.hashes
    case _ => true
  }

  predicate FairRun(fp: Fingerprint, s: AuthState, es: seq<Event>) {
    es == [] || (FairRun(fp, s, es[..|es| - 1]) && Fair(Run(fp, s, es[..|es| - 1]), es[|es| - 1]))
  }

  /* ----- the accounts as the serializers update them ----- */

  class Accounts {
    const maxAge: int
    var users: map<nat, Account>
    var issued: set<Token>
    var validated: map<nat, Token>
    ghost var begun: set<nat>
    ghost var hashes: set<string>
    ghost var clock: int

    ghost function Snapshot(): AuthState
      reads this
    {
      AuthState(users, issued, validated, begun, hashes, clock, maxAge)
    }

    method ReadToken(fp: Fingerprint, token: Token, now: int) returns (uid: Option<nat>)
      ensures uid == if Reads(fp, Snapshot(), token, now) then Some(token.uid) else None
    {
      if token !in issued || now - token.at > maxAge {
        return None;
      }
      if token.uid !in users {
        return None;
      }
      var user := users[token.uid];
      if fp(token.uid, user.password, user.lastLogin) != token.fp {
        return None;
      }
      uid := Some(token.uid);
    }

    /** Reading the token and validating the new password. */
    method ValidateReset(fp: Fingerprint, txn: nat, token: Token, strong: bool, now: int) returns (valid: bool)
      requires txn !in begun
      modifies this
      ensures valid == Passes(fp, old(Snapshot()), Validate(txn, token, strong, now))
      ensures Snapshot() == Apply(fp, old(Snapshot()), Validate(txn, token, strong, now))
    {
      var uid := ReadToken(fp, token, now);
      if uid.None? || !strong {
        return false;
      }
      validated, begun := validated[txn := token], begun + {txn};
      valid := true;
    }

    /** Storing the new password's hash for the user that was read. */
    method SaveReset(fp: Fingerprint, txn: nat, hash: string)
      requires txn in validated && validated[txn].uid in users
      modifies this
      ensures Snapshot() == Apply(fp, old(Snapshot()), Save(txn, hash))
    {
      var uid := validated[txn].uid;
      var user := users[uid];
      user := user.(password := hash);
      users := users[uid := user];
      validated, hashes := validated - {txn}, hashes + {hash};
    }

    /** The whole request, when nothing comes between its statements. */
    method ConfirmReset(fp: Fingerprint, txn: nat, token: Token, hash: string, strong: bool, now: int)
      returns (done: bool)
      requires txn !in begun && txn !in validated
      modifies this
      ensures done == (Reads(fp, old(Snapshot()), token, now) && strong)
      ensures Snapshot() == Run(fp, old(Snapshot()), [Validate(txn, token, strong, now), Save(txn, hash)])
      ensures users == if done then old(users[token.uid := users[token.uid].(password := hash)]) else old(users)
    {
      RunOfTwo(fp, Snapshot(), Validate(txn, token, strong, now), Save(txn, hash));
      done := ValidateReset(fp, txn, token, strong, now);
      if done {
        SaveReset(fp, txn, hash);
      }
    }

    /** A successful login stores its time. */
    method LogIn(fp: Fingerprint, uid: nat, now: int)
      modifies this
      ensures Snapshot() == Apply(fp, old(Snapshot()), Login(uid, now))
    {
      if uid !in users || !users[uid].active {
        return;
      }
      users := users[uid := users[uid].(lastLogin := Some(now))];
      clock := now;
    }
  }

  /* ----- what runs keep ----- */

  predicate AtMost(login: Option<int>, time: int) {
    login.None? || login.value <= time
  }

  predicate Earlier(a: Option<int>, b: Option<int>) {
    b.Some? && (a.None? || a.value < b.value)
  }

  /** The token was signed for this password hash and last login, both known by now. */
  ghost predicate SignedWith(fp: Fingerprint, s: AuthState, token: Token, hash: string, login: Option<int>) {
    token.fp == fp(token.uid, hash, login) && hash in s.hashes && AtMost(login, s.clock)
  }

  ghost predicate Inv(fp: Fingerprint, s: AuthState) {
    && (forall u :: u in s.users ==> s.users[u].password in s.hashes && AtMost(s.users[u].lastLogin, s.clock))
    && (forall token :: token in s.issued ==> token.uid in s.users && exists h, l :: SignedWith(fp, s, token, h, l))
    && (forall t :: t in s.validated ==> t in s.begun && s.validated[t] in s.issued)
  }

  lemma InvKept(fp: Fingerprint, s: AuthState, e: Event)
    requires Inv(fp, s) && Fair(s, e)
    ensures var t := Apply(fp, s, e); Inv(fp, t)
  {
    var t := Apply(fp, s, e);
    forall token | token in t.issued
      ensures token.uid in t.users && exists h, l :: SignedWith(fp, t, token, h, l)
    {
      if token in s.issued {
        var h, l :| SignedWith(fp, s, token, h, l);
        assert SignedWith(fp, t, token, h, l);
      } else {
        var user := s.users[token.uid];
        assert SignedWith(fp, t, token, user.password, user.lastLogin);
      }
    }
  }

  lemma {:induction false} RunInv(fp: Fingerprint, s: AuthState, es: seq<Event>)
    requires Inv(fp, s) && FairRun(fp, s, es)
    ensures Inv(fp, Run(fp, s, es))
  {
    if es != [] {
      RunInv(fp, s, es[..|es| - 1]);
      InvKept(fp, Run(fp, s, es[..|es| - 1]), es[|es| - 1]);
    }
  }

  /** The account has moved on from what the token was signed for, for good: the password was
      replaced by one never used before, or there was a later login. */
  ghost predicate Stale(fp: Fingerprint, s: AuthState, token: Token) {
    && token.uid in s.users
    && exists h, l :: SignedWith(fp, s, token, h, l)
                      && (h != s.users[token.uid].password || Earlier(l, s.users[token.uid].lastLogin))
  }

  lemma StaleKept(fp: Fingerprint, s: AuthState, e: Event, token: Token)
    requires Inv(fp, s) && Fair(s, e) && Stale(fp, s, token)
    ensures Stale(fp, Apply(fp, s, e), token)
  {
    var h, l :| SignedWith(fp, s, token, h, l)
                && (h != s.users[token.uid].password || Earlier(l, s.users[token.uid].lastLogin));
    assert SignedWith(fp, Apply(fp, s, e), token, h, l);
  }

  lemma StaleIsDead(fp: Fingerprint, s: AuthState, token: Token, now: int)
    requires Injective(fp) && Stale(fp, s, token)
    ensures !Reads(fp, s, token, now)
  {
  }

  /** The user logs in, or stores a new password by a token. */
  predicate Uses(s: AuthState, e: Event, uid: nat) {
    || (e.Login? && e.uid == uid && uid in s.users && s.users[uid].active)
    || (e.Save? && e.txn in s.validated && s.validated[e.txn].uid == uid)
  }

  lemma UseMakesStale(fp: Fingerprint, s: AuthState, e: Event, token: Token)
    requires Inv(fp, s) && Fair(s, e) && token in s.issued && Uses(s, e, token.uid)
    ensures Stale(fp, Apply(fp, s, e), token)
  {
    var h, l :| SignedWith(fp, s, token, h, l);
    assert SignedWith(fp, Apply(fp, s, e), token, h, l);
  }

  lemma {:induction false} StaleForever(fp: Fingerprint, s: AuthState, es: seq<Event>, token: Token)
    requires Inv(fp, s) && FairRun(fp, s, es) && Stale(fp, s, token)
    ensures Stale(fp, Run(fp, s, es), token)
  {
    if es != [] {
      var init := es[..|es| - 1];
      StaleForever(fp, s, init, token);
      RunInv(fp, s, init);
      StaleKept(fp, Run(fp, s, init), es[|es| - 1], token);
    }
  }

  /** A login or a reset kills every token issued to that user before it, forever: no
      continuation of the run makes one readable again. */
  lemma UseKillsForever(fp: Fingerprint, s: AuthState, e: Event, es: seq<Event>, token: Token, now: int)
    requires Injective(fp) && Inv(fp, s) && Fair(s, e) && FairRun(fp, Apply(fp, s, e), es)
    requires token in s.issued && Uses(s, e, token.uid)
    ensures !Reads(fp, Run(fp, Apply(fp, s, e), es), token, now)
  {
    UseMakesStale(fp, s, e, token);
    InvKept(fp, s, e);
    StaleForever(fp, Apply(fp, s, e), es, token);
    StaleIsDead(fp, Run(fp, Apply(fp, s, e), es), token, now);
  }

  /** Two tokens with one fingerprint belong to one user, and both are stale or neither. */
  lemma SameFingerprint(fp: Fingerprint, s: AuthState, a: Token, b: Token, now: int)
    requires Injective(fp) && a.fp == b.fp && Stale(fp, s, a)
    ensures !Reads(fp, s, b, now)
  {
    var h, l :| SignedWith(fp, s, a, h, l)
                && (h != s.users[a.uid].password || Earlier(l, s.users[a.uid].lastLogin));
  }

  /** Once a token is stale, no confirmation with its fingerprint is validated any more: those in
      flight are left from before. */
  lemma {:induction false} LeftOver(fp: Fingerprint, s: AuthState, es: seq<Event>, token: Token, t: nat)
    requires Injective(fp) && Inv(fp, s) && FairRun(fp, s, es) && Stale(fp, s, token)
    requires t in Run(fp, s, es).validated && Run(fp, s, es).validated[t].fp == token.fp
    ensures t in s.validated && s.validated[t] == Run(fp, s, es).validated[t]
  {
    if es != [] {
      var init, e := es[..|es| - 1], es[|es| - 1];
      var d := Run(fp, s, init);
      StaleForever(fp, s, init, token);
      if e.Validate? && e.txn == t && Passes(fp, d, e) {
        SameFingerprint(fp, d, token, e.token, e.now);
      } else {
        LeftOver(fp, s, init, token, t);
      }
    }
  }

  /** Of all tokens that share a fingerprint one is redeemed at most: once it has been, another is
      redeemed only by a confirmation that had validated it before the first stored its
      password, and was still in flight then. */
  lemma RedeemedOnce(fp: Fingerprint, s: AuthState, first: Event, token: Token, es: seq<Event>, second: Event, other: Token)
    requires Injective(fp) && Inv(fp, s) && Fair(s, first) && FairRun(fp, Apply(fp, s, first), es)
    requires Redeems(s, first, token) && other.fp == token.fp
    ensures Redeems(Run(fp, Apply(fp, s, first), es), second, other) ==>
              second.txn != first.txn && second.txn in s.validated && s.validated[second.txn] == other
  {
    if Redeems(Run(fp, Apply(fp, s, first), es), second, other) {
      UseMakesStale(fp, s, first, token);
      InvKept(fp, s, first);
      LeftOver(fp, Apply(fp, s, first), es, token, second.txn);
    }
  }

  /** And by such a one it is: two confirmations that both validate a token before either stores
      its password both store theirs. */
  lemma RedeemedTwice(fp: Fingerprint, s: AuthState, token: Token, now: int, t: nat, u: nat, hash: string, next: string)
    requires Reads(fp, s, token, now) && t != u && t !in s.begun && u !in s.begun
    ensures var both := Apply(fp, Apply(fp, s, Validate(t, token, true, now)), Validate(u, token, true, now));
            && Redeems(both, Save(t, hash), token)
            && Redeems(Apply(fp, both, Save(t, hash)), Save(u, next), token)
            && Apply(fp, Apply(fp, both, Save(t, hash)), Save(u, next)).users[token.uid].password == next
  {
  }

  /** A user whom a run leaves alone: nobody logs in as them or redeems a token of theirs. */
  predicate Untouched(fp: Fingerprint, s: AuthState, es: seq<Event>, uid: nat) {
    es == [] || (Untouched(fp, s, es[..|es| - 1], uid)
                 && !Uses(Run(fp, s, es[..|es| - 1]), es[|es| - 1], uid))
  }

  /** A token just requested stays redeemable until it is too old, whatever other users do: the
      only things that kill it are its own user's login or reset. */
  lemma {:induction false} FreshTokenWorks(fp: Fingerprint, s: AuthState, uid: nat, at: int, es: seq<Event>, now: int)
    requires uid in s.users && s.users[uid].active && now - at <= s.maxAge
    requires Untouched(fp, Apply(fp, s, Request(uid, at)), es, uid)
    ensures var t := Run(fp, Apply(fp, s, Request(uid, at)), es);
            && t.maxAge == s.maxAge && uid in t.users && t.users[uid] == s.users[uid]
            && Reads(fp, t, SignedFor(fp, s, uid, at), now)
  {
    if es != [] {
      FreshTokenWorks(fp, s, uid, at, es[..|es| - 1], now);
    }
  }

  /** Before the first registration. */
  function Empty(maxAge: int): AuthState {
    AuthState(map[], {}, map[], {}, {}, 0, maxAge)
  }

  /** Every state that events reach from there is one the statements above are about. */
  lemma ReachableInv(fp: Fingerprint, maxAge: int, es: seq<Event>)
    requires FairRun(fp, Empty(maxAge), es)
    ensures Inv(fp, Run(fp, Empty(maxAge), es))
  {
    RunInv(fp, Empty(maxAge), es);
  }

  /* ----- the steps, on the fields ----- */

  /** A request issues exactly one token, and only to an active user: it carries that user's
      fingerprint of now and the time of signing. */
  lemma IssuedExactly(fp: Fingerprint, s: AuthState, uid: nat, now: int)
    ensures var t := Apply(fp, s, Request(uid, now));
            && t == s.(issued := t.issued)
            && forall token :: token in t.issued <==>
                 token in s.issued ||
                 (&& uid in s.users && s.users[uid].active && token.uid == uid && token.at == now
                  && token.fp == fp(uid, s.users[uid].password, s.users[uid].lastLogin))
  {
  }

  /** A confirmation passes validation exactly when its token was issued here and is not older than
      the limit, its user exists and has the password and the last login the token was signed
      for, and the new password is strong. */
  lemma ValidatedExactly(fp: Fingerprint, s: AuthState, txn: nat, token: Token, strong: bool, now: int)
    requires txn !in s.validated
    ensures var t := Apply(fp, s, Validate(txn, token, strong, now));
            && t == s.(validated := t.validated, begun := t.begun)
            && (forall u :: u != txn ==> (u in t.validated <==> u in s.validated)
                                         && (u in s.validated ==> t.validated[u] == s.validated[u]))
            && (txn in t.validated ==> t.validated[txn] == token)
            && (txn in t.validated <==>
                  && txn !in s.begun && strong
                  && token in s.issued && now <= token.at + s.maxAge
                  && token.uid in s.users
                  && token.fp == fp(token.uid, s.users[token.uid].password, s.users[token.uid].lastLogin))
  {
  }

  /** Saving stores the new password for the user of the token that was validated, and nobody
      else's; a login stores its time for an active user. */
  lemma StoredExactly(fp: Fingerprint, s: AuthState, txn: nat, hash: string, uid: nat, now: int)
    requires Inv(fp, s)
    ensures var t := Apply(fp, s, Save(txn, hash));
            && t.issued == s.issued && t.users.Keys == s.users.Keys && txn !in t.validated
            && forall u :: u in s.users ==>
                 t.users[u] == if txn in s.validated && s.validated[txn].uid == u then s.users[u].(password := hash)
                               else s.users[u]
    ensures var t := Apply(fp, s, Login(uid, now));
            && t.issued == s.issued && t.users.Keys == s.users.Keys && t.validated == s.validated
            && forall u :: u in s.users ==>
                 t.users[u] == if u == uid && s.users[u].active then s.users[u].(lastLogin := Some(now)) else s.users[u]
  {
  }

  /** Over any run, a confirmation in flight, and so any that stores a password, was validated when its
      token was not older than the limit. */
  lemma {:induction false} ValidatedInTime(fp: Fingerprint, s: AuthState, es: seq<Event>, txn: nat)
    requires txn !in s.validated && txn in Run(fp, s, es).validated
    ensures Run(fp, s, es).maxAge == s.maxAge
    ensures exists i, now ::
              && 0 <= i < |es| && es[i] == Validate(txn, Run(fp, s, es).validated[txn], true, now)
              && now <= Run(fp, s, es).validated[txn].at + s.maxAge
  {
    var init, e := es[..|es| - 1], es[|es| - 1];
    var d := Run(fp, s, init);
    SameMaxAge(fp, s, init);
    if txn in d.validated {
      ValidatedInTime(fp, s, init, txn);
      var i, now :| 0 <= i < |init| && init[i] == Validate(txn, d.validated[txn], true, now)
                    && now <= d.validated[txn].at + s.maxAge;
      assert es[i] == init[i];
    } else {
      assert e.Validate? && e.txn == txn;
      ValidatedExactly(fp, d, txn, e.token, e.strong, e.now);
      assert es[|es| - 1] == Validate(txn, e.token, true, e.now);
    }
  }

  lemma {:induction false} SameMaxAge(fp: Fingerprint, s: AuthState, es: seq<Event>)
    ensures Run(fp, s, es).maxAge == s.maxAge
  {
    if es != [] {
      SameMaxAge(fp, s, es[..|es| - 1]);
    }
  }
}
