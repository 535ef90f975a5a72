/** The users and sessions tables as internal/auth sees them, and every SQL
    statement it runs on them. One statement is one atomic step over the latest
    committed state. `issued`, `birth` and `log` are history: statements append
    to them and no statement's effect depends on them, except that the token
    generator never repeats a value. */
module AuthDb {
  import opened Outcomes
  import opened Totp
  import opened Ids

  const SESSION_MAX_AGE: Time := 12 * 60 * 60
  const PENDING_SESSION_TTL: Time := 5 * 60
  const MAX_TOTP_ATTEMPTS: nat := 5

  function SessionTtl(verified: bool): Time {
    if verified then SESSION_MAX_AGE else PENDING_SESSION_TTL
  }

  datatype User = User(secret: Option<Sealed>, enabled: bool, lastCounter: int, password: string)

  datatype Session = Session(user: UserId, verified: bool, attempts: nat, expires: Time)

  /** Whose session a token first named, of which class, and when its row was inserted. */
  datatype Birth = Birth(user: UserId, verified: bool, at: Time)

  datatype Event =
    | Accepted(pid: Pid, user: UserId, use: CodeUse, counter: int)  // totp_last_counter advanced
    | GuardReset(user: UserId)                                      // totp_last_counter set to 0, or the row deleted
    | Failed(pid: Pid, token: Token, count: nat)                    // totp_attempts bumped to count
    | Rotated(pid: Pid, spent: Token, minted: Token, user: UserId, accepted: nat)

  datatype Db = Db(
    now: Time,
    users: map<UserId, User>,
    sessions: map<Token, Session>,
    issued: map<Token, Pid>,
    birth: map<Token, Birth>,
    log: seq<Event>)

  datatype Stmt =
    | ReadClock
    | NewToken(token: Token)
    | FindSession(token: Token)
    | FindPending(token: Token)
    | FindUser(user: UserId)
    | PurgeExpired
    | InsertSession(token: Token, user: UserId, verified: bool, expires: Time)
    | DeleteSession(token: Token)
    | DeleteSessionsOf(user: UserId)
    | RotateSession(spent: Token, minted: Token, user: UserId, accepted: nat)
    | BumpAttempts(token: Token)
    | AdvanceCounter(user: UserId, use: CodeUse, counter: int)
    | StoreSecret(user: UserId, sealed: Sealed)
    | EnableTotp(user: UserId)
    | WipeTotp(user: UserId)
    | SetPassword(user: UserId, password: string)
    | InsertUser(user: UserId, password: string)
    | DeleteUser(user: UserId)

  datatype Reply =
    | Blocked                          // not a possible outcome: nothing happens
    | Error                            // constraint violation, no effect
    | Clock(at: Time)
    | Owner(user: Option<UserId>)
    | Row(row: Option<User>)
    | Rows(n: nat)
    | Logged(index: Option<nat>)       // None: no row matched
    | Attempts(count: Option<nat>)

  predicate Live(db: Db, t: Token) {
    t in db.sessions && db.sessions[t].expires > db.now
  }

  predicate LivePending(db: Db, t: Token) {
    Live(db, t) && !db.sessions[t].verified
  }

  function Without(sessions: map<Token, Session>, u: UserId): map<Token, Session> {
    map t | t in sessions && sessions[t].user != u :: sessions[t]
  }

  /** The effect and the answer of one statement run by request `pid`. */
  function Exec(db: Db, pid: Pid, stmt: Stmt): (Db, Reply) {
    match stmt
    case ReadClock =>
      (db, Clock(db.now))
    case NewToken(t) =>
      if t in db.issued then (db, Blocked)
      else (db.(issued := db.issued[t := pid]), Rows(1))
    case FindSession(t) =>
      (db, Owner(if Live(db, t) && db.sessions[t].verified then Some(db.sessions[t].user) else None))
    case FindPending(t) =>
      (db, Owner(if LivePending(db, t) then Some(db.sessions[t].user) else None))
    case FindUser(u) =>
      (db, Row(if u in db.users then Some(db.users[u]) else None))
    case PurgeExpired =>
      (db.(sessions := map t | t in db.sessions && !(db.sessions[t].expires < db.now) :: db.sessions[t]), Rows(0))
    case InsertSession(t, u, verified, expires) =>
      if u !in db.users || t in db.sessions then (db, Error)
      else (db.(sessions := db.sessions[t := Session(u, verified, 0, expires)],
                birth := db.birth[t := Birth(u, verified, db.now)]),
            Rows(1))
    case DeleteSession(t) =>
      (db.(sessions := db.sessions - {t}), Rows(if t in db.sessions then 1 else 0))
    case DeleteSessionsOf(u) =>
      (db.(sessions := Without(db.sessions, u)), Rows(|set t | t in db.sessions && db.sessions[t].user == u|))
    case RotateSession(spent, minted, u, accepted) =>
      if !LivePending(db, spent) then (db, Rows(0))
      else if u !in db.users || minted in db.sessions then (db, Error)
      else (db.(sessions := (db.sessions - {spent})[minted := Session(u, true, 0, db.now + SESSION_MAX_AGE)],
                birth := db.birth[minted := Birth(u, true, db.now)],
                log := db.log + [Rotated(pid, spent, minted, u, accepted)]),
            Rows(1))
    case BumpAttempts(t) =>
      if !LivePending(db, t) then (db, Attempts(None))
      else
        var n := db.sessions[t].attempts + 1;
        (db.(sessions := db.sessions[t := db.sessions[t].(attempts := n)], log := db.log + [Failed(pid, t, n)]),
         Attempts(Some(n)))
    case AdvanceCounter(u, use, c) =>
      if u !in db.users || !(db.users[u].lastCounter < c) then (db, Logged(None))
      else (db.(users := db.users[u := db.users[u].(lastCounter := c)], log := db.log + [Accepted(pid, u, use, c)]),
            Logged(Some(|db.log|)))
    case StoreSecret(u, sealed) =>
      if u !in db.users || db.users[u].enabled then (db, Rows(0))
      else (db.(users := db.users[u := db.users[u].(secret := Some(sealed), enabled := false, lastCounter := 0)],
                log := db.log + [GuardReset(u)]),
            Rows(1))
    case EnableTotp(u) =>
      if u !in db.users || db.users[u].secret.None? || db.users[u].enabled then (db, Rows(0))
      else (db.(users := db.users[u := db.users[u].(enabled := true)]), Rows(1))
    case WipeTotp(u) =>
      if u !in db.users then (db, Rows(0))
      else (db.(users := db.users[u := db.users[u].(secret := None, enabled := false, lastCounter := 0)],
                log := db.log + [GuardReset(u)]),
            Rows(1))
    case SetPassword(u, p) =>
      if u !in db.users then (db, Rows(0))
      else (db.(users := db.users[u := db.users[u].(password := p)]), Rows(1))
    case InsertUser(u, p) =>
      if u in db.users then (db, Error)
      else (db.(users := db.users[u := User(None, false, 0, p)]), Rows(1))
    case DeleteUser(u) =>
      if u !in db.users then (db, Rows(0))
      else (db.(users := db.users - {u}, sessions := Without(db.sessions, u), log := db.log + [GuardReset(u)]), Rows(1))
  }
}
