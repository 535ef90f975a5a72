/** What each call does to accounts and sessions, said of the rows themselves: the
    effects of AuthSolo, read without any of the functions the machine is made of. */
module AuthMeaning {
  import opened Outcomes
  import opened Totp
  import opened Ids
  import opened AuthDb
  import opened AuthHandlers
  import opened AuthSolo

  /** u's stored secret is intact, and c is the counter its code is accepted for at
      this second: the latest timely one, and beyond the guard. */
  ghost predicate Proves(cfg: Config, db: Db, u: UserId, code: string, c: int) {
    && u in db.users && db.users[u].secret.Some? && db.users[u].secret.value.Intact?
    && db.users[u].lastCounter < c && LatestTimely(cfg.g, db.users[u].secret.value.secret, code, db.now, c)
  }

  ghost predicate Unproved(cfg: Config, db: Db, u: UserId, code: string) {
    forall c :: !Proves(cfg, db, u, code, c)
  }

  lemma CounterMeans(cfg: Config, db: Db, u: UserId, code: string)
    requires db.now >= 0 && u in db.users
    ensures forall c ::
      AcceptableCounter(cfg, db, u, db.users[u].secret, code) == Some(c) <==> Proves(cfg, db, u, code, c)
    ensures AcceptableCounter(cfg, db, u, db.users[u].secret, code) == None <==> Unproved(cfg, db, u, code)
  {
    match db.users[u].secret
    case Some(Intact(secret, _)) => VerdictInSeconds(cfg.g, secret, code, db.now);
    case _ =>
  }

  ghost predicate Nothing(db: Db, e: Effect) {
    e.users == db.users && e.sessions == db.sessions
  }

  /** All sessions but `added` are the old ones, without u's if these are wiped, and
      without the expired ones if these are purged. */
  ghost predicate Kept(db: Db, u: UserId, wiped: bool, purged: bool, added: Token, e: Effect) {
    && (forall t | t != added :: t in e.sessions <==>
          t in db.sessions && !(wiped && db.sessions[t].user == u) && !(purged && db.sessions[t].expires < db.now))
    && (forall t | t != added && t in e.sessions :: e.sessions[t] == db.sessions[t])
  }

  /** Wrong password or no such account: refused. Otherwise a session of five minutes
      that still owes a code, if the switch is on and the second factor armed, and
      a full one of twelve hours in every other case. */
  ghost predicate LoginDoes(cfg: Config, db: Db, u: UserId, password: string, draw: Token, f: Faults, e: Effect) {
    if u !in db.users || db.users[u].password != password then Nothing(db, e) && e.response == Refused
    else if f.draw then Nothing(db, e) && e.response == ServerError
    else
      && e.users == db.users && Kept(db, u, false, !f.purge, draw, e)
      && if f.insert then draw !in e.sessions && e.response == ServerError
         else if cfg.totpOn && db.users[u].enabled then
           draw in e.sessions && e.sessions[draw] == Session(u, false, 0, db.now + 300)
             && e.response == LoggedIn(draw, false)
         else
           draw in e.sessions && e.sessions[draw] == Session(u, true, 0, db.now + 43200)
             && e.response == LoggedIn(draw, true)
  }

  /** Of u's sessions only a new one is left; a failed wipe leaves them all, and a
      new session that cannot be made is not missed. */
  ghost predicate ReissueDoes(db: Db, u: UserId, draw: Token, f: Faults, e: Effect) {
    if f.wipe then e.sessions == db.sessions && e.response == Uncontained
    else
      && Kept(db, u, true, !f.purge && !f.draw, draw, e)
      && if f.draw || f.insert then draw !in e.sessions && e.response == Done
         else
           draw in e.sessions && e.sessions[draw] == Session(u, true, 0, db.now + 43200)
             && e.response == LoggedIn(draw, true)
  }

  ghost predicate ChangePasswordDoes(db: Db, u: UserId, current: string, next: string, draw: Token, f: Faults,
                                     e: Effect) {
    if u !in db.users then Nothing(db, e) && e.response == ServerError
    else if db.users[u].password != current then Nothing(db, e) && e.response == Refused
    else
      var row := db.users[u];
      e.users == db.users[u := User(row.secret, row.enabled, row.lastCounter, next)] && ReissueDoes(db, u, draw, f, e)
  }

  ghost predicate ChangeEmailDoes(db: Db, u: UserId, current: string, draw: Token, f: Faults, e: Effect) {
    if u !in db.users then Nothing(db, e) && e.response == ServerError
    else if db.users[u].password != current then Nothing(db, e) && e.response == Refused
    else e.users == db.users && ReissueDoes(db, u, draw, f, e)
  }

  /** An account that is not armed gets the new secret, and starts from a zero guard. */
  ghost predicate EnrollDoes(db: Db, u: UserId, secret: string, nonce: nat, e: Effect) {
    if u !in db.users then Nothing(db, e) && e.response == ServerError
    else if db.users[u].enabled then Nothing(db, e) && e.response == Refused
    else
      && e.users == db.users[u := User(Some(Intact(secret, nonce)), false, 0, db.users[u].password)]
      && e.sessions == db.sessions && e.response == Done
  }

  /** With the password and a code the account is armed, and the code's counter used
      up; an account armed already only loses the counter. */
  ghost predicate ConfirmDoes(cfg: Config, db: Db, u: UserId, code: string, password: string, f: Faults, e: Effect) {
    if u !in db.users then Nothing(db, e) && e.response == ServerError
    else if db.users[u].password != password || f.accept || Unproved(cfg, db, u, code) then
      Nothing(db, e) && e.response == Refused
    else
      && e.sessions == db.sessions && e.response == (if db.users[u].enabled then Refused else Done)
      && forall c | Proves(cfg, db, u, code, c) ::
          e.users == db.users[u := User(db.users[u].secret, true, c, db.users[u].password)]
  }

  /** With the password and a code an armed account loses secret, flag and guard. */
  ghost predicate DisableDoes(cfg: Config, db: Db, u: UserId, code: string, password: string, f: Faults, e: Effect) {
    if u !in db.users then Nothing(db, e) && e.response == ServerError
    else if db.users[u].password != password || !db.users[u].enabled || f.accept || Unproved(cfg, db, u, code) then
      Nothing(db, e) && e.response == Refused
    else
      && e.users == db.users[u := User(None, false, 0, db.users[u].password)]
      && e.sessions == db.sessions && e.response == Done
  }

  /** With the password, and a code if the switch is on and the account armed, the
      account and its sessions are gone. */
  ghost predicate EraseDoes(cfg: Config, db: Db, u: UserId, code: string, password: string, f: Faults, e: Effect) {
    if u !in db.users then Nothing(db, e) && e.response == ServerError
    else if db.users[u].password != password
            || (cfg.totpOn && db.users[u].enabled && db.users[u].secret.Some?
                && (f.accept || Unproved(cfg, db, u, code))) then
      Nothing(db, e) && e.response == Refused
    else
      && (forall v :: v in e.users <==> v in db.users && v != u)
      && (forall v | v in e.users :: e.users[v] == db.users[v])
      && (forall t :: t in e.sessions <==> t in db.sessions && db.sessions[t].user != u)
      && (forall t | t in e.sessions :: e.sessions[t] == db.sessions[t]) && e.response == Done
  }

  /** One more failure on a pending session, which the fifth one ends. */
  ghost predicate FailureDoes(db: Db, cookie: Token, f: Faults, e: Effect)
    requires cookie in db.sessions
  {
    var row := db.sessions[cookie];
    var n := row.attempts + 1;
    && e.users == db.users
    && if n >= 5 && !f.lock then
         && (forall t :: t in e.sessions <==> t in db.sessions && t != cookie)
         && (forall t | t in e.sessions :: e.sessions[t] == db.sessions[t]) && e.response == TooManyAttempts
       else
         && e.sessions == db.sessions[cookie := Session(row.user, row.verified, n, row.expires)]
         && e.response == if n < 5 then InvalidCode(n) else LockFailed(cookie)
  }

  /** A code of the pending session's owner uses up its counter and exchanges the
      session for a full one of twelve hours; any other code is a failure; and
      without an unexpired pending session nothing happens. */
  ghost predicate VerifyDoes(cfg: Config, db: Db, cookie: Token, code: string, draw: Token, f: Faults, e: Effect) {
    if cookie !in db.sessions || db.sessions[cookie].verified || db.sessions[cookie].expires <= db.now then
      Nothing(db, e) && e.response == SessionExpired
    else
      var u := db.sessions[cookie].user;
      if Unproved(cfg, db, u, code) then FailureDoes(db, cookie, f, e)
      else
        && e.response == Verified(draw)
        && (forall c | Proves(cfg, db, u, code, c) ::
              e.users == db.users[u := User(db.users[u].secret, db.users[u].enabled, c, db.users[u].password)])
        && draw in e.sessions && e.sessions[draw] == Session(u, true, 0, db.now + 43200)
        && (forall t | t != draw :: t in e.sessions <==> t in db.sessions && t != cookie)
        && (forall t | t != draw && t in e.sessions :: e.sessions[t] == db.sessions[t])
  }

  ghost predicate LogOutDoes(db: Db, cookie: Token, f: Faults, e: Effect) {
    && e.users == db.users && e.response == Done
    && (forall t :: t in e.sessions <==> t in db.sessions && (f.logout || t != cookie))
    && (forall t | t in e.sessions :: e.sessions[t] == db.sessions[t])
  }

  ghost predicate LogOutAllDoes(db: Db, u: UserId, e: Effect) {
    && e.users == db.users && e.response == Done
    && (forall t :: t in e.sessions <==> t in db.sessions && db.sessions[t].user != u)
    && (forall t | t in e.sessions :: e.sessions[t] == db.sessions[t])
  }

  ghost predicate RequestDoes(cfg: Config, db: Db, u: UserId, cookie: Token, req: Request, draw: Token, f: Faults,
                              e: Effect) {
    match req
    case LogOut => LogOutDoes(db, cookie, f, e)
    case LogOutAll => LogOutAllDoes(db, u, e)
    case ChangePassword(current, next) => ChangePasswordDoes(db, u, current, next, draw, f, e)
    case ChangeEmail(current) => ChangeEmailDoes(db, u, current, draw, f, e)
    case Enroll(secret, nonce) => EnrollDoes(db, u, secret, nonce, e)
    case Confirm(code, password) => ConfirmDoes(cfg, db, u, code, password, f, e)
    case Disable(code, password) => DisableDoes(cfg, db, u, code, password, f, e)
    case Erase(code, password) => EraseDoes(cfg, db, u, code, password, f, e)
  }

  /** With the kill switch off, verifying, enrolling, confirming and disabling are
      refused whatever they say; other requests need an unexpired full session. */
  ghost predicate CallDoes(cfg: Config, db: Db, call: Call, draw: Token, f: Faults, e: Effect) {
    match call
    case Verify(cookie, code) =>
      if cfg.totpOn then VerifyDoes(cfg, db, cookie, code, draw, f, e) else Nothing(db, e) && e.response == Refused
    case Login(u, password) => LoginDoes(cfg, db, u, password, draw, f, e)
    case Authed(cookie, req) =>
      if !cfg.totpOn && (req.Enroll? || req.Confirm? || req.Disable?) then Nothing(db, e) && e.response == Refused
      else if cookie !in db.sessions || !db.sessions[cookie].verified || db.sessions[cookie].expires <= db.now then
        Nothing(db, e) && e.response == SessionExpired
      else RequestDoes(cfg, db, db.sessions[cookie].user, cookie, req, draw, f, e)
  }

  // ---- the effects do this -----------------------------------------------------------------

  lemma LoginMeans(cfg: Config, db: Db, u: UserId, password: string, draw: Token, f: Faults)
    requires draw !in db.sessions
    ensures LoginDoes(cfg, db, u, password, draw, f, LoginEffect(cfg, db, u, password, draw, f))
  {
  }

  lemma ReissueMeans(db: Db, u: UserId, draw: Token, f: Faults)
    requires draw !in db.sessions && u in db.users
    ensures var e := ReissueEffect(db, u, draw, f); ReissueDoes(db, u, draw, f, e) && e.users == db.users
  {
  }

  lemma ChangePasswordMeans(db: Db, u: UserId, current: string, next: string, draw: Token, f: Faults)
    requires draw !in db.sessions
    ensures ChangePasswordDoes(db, u, current, next, draw, f, ChangePasswordEffect(db, u, current, next, draw, f))
  {
    if u in db.users {
      var changed := db.(users := db.users[u := db.users[u].(password := next)]);
      ReissueMeans(changed, u, draw, f);
    }
  }

  lemma ChangeEmailMeans(db: Db, u: UserId, current: string, draw: Token, f: Faults)
    requires draw !in db.sessions
    ensures ChangeEmailDoes(db, u, current, draw, f, ChangeEmailEffect(db, u, current, draw, f))
  {
    if u in db.users { ReissueMeans(db, u, draw, f); }
  }

  lemma EnrollMeans(db: Db, u: UserId, secret: string, nonce: nat)
    ensures EnrollDoes(db, u, secret, nonce, EnrollEffect(db, u, secret, nonce))
  {
  }

  lemma ConfirmMeans(cfg: Config, db: Db, u: UserId, code: string, password: string, f: Faults)
    requires db.now >= 0
    ensures ConfirmDoes(cfg, db, u, code, password, f, ConfirmEffect(cfg, db, u, code, password, f))
  {
    if u in db.users { CounterMeans(cfg, db, u, code); }
  }

  lemma DisableMeans(cfg: Config, db: Db, u: UserId, code: string, password: string, f: Faults)
    requires db.now >= 0
    ensures DisableDoes(cfg, db, u, code, password, f, DisableEffect(cfg, db, u, code, password, f))
  {
    if u in db.users { CounterMeans(cfg, db, u, code); }
  }

  lemma EraseMeans(cfg: Config, db: Db, u: UserId, code: string, password: string, f: Faults)
    requires db.now >= 0
    ensures EraseDoes(cfg, db, u, code, password, f, EraseEffect(cfg, db, u, code, password, f))
  {
    if u in db.users { CounterMeans(cfg, db, u, code); }
  }

  lemma FailureMeans(db: Db, cookie: Token, f: Faults)
    requires cookie in db.sessions && !db.sessions[cookie].verified && db.now < db.sessions[cookie].expires
    ensures FailureDoes(db, cookie, f, FailEffect(db, cookie, f))
  {
  }

  lemma VerifyMeans(cfg: Config, db: Db, cookie: Token, code: string, draw: Token, f: Faults)
    requires db.now >= 0 && draw !in db.sessions
    ensures VerifyDoes(cfg, db, cookie, code, draw, f, VerifyEffect(cfg, db, cookie, code, draw, f))
  {
    if cookie in db.sessions && !db.sessions[cookie].verified && db.now < db.sessions[cookie].expires {
      FailureMeans(db, cookie, f);
      if db.sessions[cookie].user in db.users { CounterMeans(cfg, db, db.sessions[cookie].user, code); }
    }
  }

  lemma RequestMeans(cfg: Config, db: Db, u: UserId, cookie: Token, req: Request, draw: Token, f: Faults)
    requires db.now >= 0 && draw !in db.sessions
    ensures RequestDoes(cfg, db, u, cookie, req, draw, f, RequestEffect(cfg, db, u, cookie, req, draw, f))
  {
    match req
    case ChangePassword(current, next) => ChangePasswordMeans(db, u, current, next, draw, f);
    case ChangeEmail(current) => ChangeEmailMeans(db, u, current, draw, f);
    case Enroll(secret, nonce) => EnrollMeans(db, u, secret, nonce);
    case Confirm(code, password) => ConfirmMeans(cfg, db, u, code, password, f);
    case Disable(code, password) => DisableMeans(cfg, db, u, code, password, f);
    case Erase(code, password) => EraseMeans(cfg, db, u, code, password, f);
    case _ =>
  }

  /** What every call does, from any tables and with any of the failures. */
  lemma CallMeans(cfg: Config, db: Db, call: Call, draw: Token, f: Faults)
    requires db.now >= 0 && draw !in db.sessions
    ensures CallDoes(cfg, db, call, draw, f, CallEffect(cfg, db, call, draw, f))
  {
    match call
    case Verify(cookie, code) => VerifyMeans(cfg, db, cookie, code, draw, f);
    case Login(u, password) => LoginMeans(cfg, db, u, password, draw, f);
    case Authed(cookie, req) =>
      if cookie in db.sessions { RequestMeans(cfg, db, db.sessions[cookie].user, cookie, req, draw, f); }
  }
}
