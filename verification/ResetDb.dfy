/** The password_reset_tokens table, the statements internal/auth/reset.go runs
    on it, and its two operations as step programs. `issued`, `presented`,
    `birth`, `used` and `log` are history. */
module ResetDb {
  import opened Outcomes
  import opened Ids

  const RESET_TOKEN_TTL: Time := 10 * 60
  const MAX_ATTEMPTS: nat := 3

  datatype TokenRow = TokenRow(user: UserId, expires: Time, consumed: bool)

  /** Why a token was refused. */
  datatype Refusal = Invalid | Expired | Used

  datatype Event =
    | Began(pid: Pid, user: UserId)                         // issueToken called
    | Deleted(pid: Pid, user: UserId)                       // its DELETE
    | Inserted(pid: Pid, user: UserId, token: Token)        // its successful INSERT
    | Ended(pid: Pid)                                       // its return
    | Consumed(pid: Pid, user: UserId, token: Token, at: Time)
    | PasswordSet(pid: Pid, user: UserId, token: Token, consumed: nat)
    | Answered(pid: Pid, token: Token, refusal: Refusal, at: Time)
    | Erased(user: UserId)

  /** Who inserted a token, for whom, when it expires, and where in the log the
      inserting call began and the insert is. */
  datatype Birth = Birth(pid: Pid, user: UserId, expires: Time, began: nat, at: nat)

  datatype Db = Db(
    now: Time,
    passwords: map<UserId, string>,
    tokens: map<Token, TokenRow>,
    issued: map<Token, Pid>,
    presented: set<Token>,
    birth: map<Token, Birth>,
    used: map<Token, nat>,
    log: seq<Event>)

  datatype Stmt =
    | ReadClock
    | NewToken(token: Token)
    | DeleteTokens(user: UserId)
    | InsertToken(token: Token, user: UserId, expires: Time, began: nat)
    | Return
    | Consume(token: Token)
    | FindToken(token: Token)
    | SetPassword(user: UserId, password: string, token: Token, consumed: nat)

  datatype Reply =
    | Blocked                            // not a possible outcome: nothing happens
    | Error                              // any failure but a unique violation, no effect
    | Clock(at: Time)
    | Rows
    | Logged(index: nat)
    | Violation(insert: nat)             // 23505; the blocking row's insert, in the log
    | Owner(user: Option<UserId>, index: nat)
    | Found(refusal: Refusal)

  predicate Unconsumed(db: Db, t: Token, u: UserId) {
    t in db.tokens && db.tokens[t].user == u && !db.tokens[t].consumed
  }

  predicate Consumable(db: Db, t: Token) {
    t in db.tokens && !db.tokens[t].consumed && db.tokens[t].expires > db.now
  }

  /** The rows the partial unique index would find in the way of an insert for u. */
  function Blockers(db: Db, u: UserId): set<Token> {
    set t | t in db.tokens && Unconsumed(db, t, u)
  }

  /** classifyToken */
  function Classify(db: Db, t: Token): Refusal {
    if t !in db.tokens then Invalid else if db.tokens[t].consumed then Used else Expired
  }

  ghost function Exec(db: Db, pid: Pid, stmt: Stmt): (Db, Reply) {
    match stmt
    case ReadClock => (db, Clock(db.now))
    case NewToken(t) =>
      if t in db.issued || t in db.presented then (db, Blocked)
      else (db.(issued := db.issued[t := pid]), Rows)
    case DeleteTokens(u) =>
      (db.(tokens := map t | t in db.tokens && db.tokens[t].user != u :: db.tokens[t],
           log := db.log + [Deleted(pid, u)]),
       Logged(|db.log|))
    case InsertToken(t, u, expires, began) =>
      if u !in db.passwords || t in db.tokens then (db, Error)
      else if Blockers(db, u) != {} then
        var blocker :| blocker in Blockers(db, u);
        (db, if blocker in db.birth then Violation(db.birth[blocker].at) else Error)
      else (db.(tokens := db.tokens[t := TokenRow(u, expires, false)],
                birth := db.birth[t := Birth(pid, u, expires, began, |db.log|)],
                log := db.log + [Inserted(pid, u, t)]),
            Logged(|db.log|))
    case Return => (db.(log := db.log + [Ended(pid)]), Rows)
    case Consume(t) =>
      if !Consumable(db, t) then (db, Owner(None, 0))
      else
        var u := db.tokens[t].user;
        (db.(tokens := db.tokens[t := db.tokens[t].(consumed := true)],
             used := db.used[t := |db.log|],
             log := db.log + [Consumed(pid, u, t, db.now)]),
         Owner(Some(u), |db.log|))
    case FindToken(t) =>
      (db.(log := db.log + [Answered(pid, t, Classify(db, t), db.now)]), Found(Classify(db, t)))
    case SetPassword(u, password, t, k) =>
      if u !in db.passwords then (db, Rows)
      else (db.(passwords := db.passwords[u := password], log := db.log + [PasswordSet(pid, u, t, k)]), Rows)
  }

  // ---- the step programs -------------------------------------------------------------

  /** One issueToken call: for whom, where in the log it began, and the inserts
      that blocked its attempts so far. */
  datatype Call = Call(user: UserId, began: nat, blocks: seq<nat>)

  datatype Response =
    | Issued(token: Token)
    | Contention(call: Call)     // "supersede contention"
    | ResetDone
    | Rejected(refusal: Refusal)
    | Failure

  datatype Handler =
    // issueToken, attempt |blocks| + 1 of 3; `since` is this attempt's DELETE in the log
    | IssueDelete(call: Call)
    | IssueName(call: Call, since: nat)
    | IssueStamp(call: Call, since: nat, token: Token)
    | IssueInsert(call: Call, since: nat, token: Token, expires: Time)
    | IssueReturn(response: Response)
    // ConfirmReset
    | ConfirmConsume(token: Token, password: string)
    | ConfirmWrite(token: Token, user: UserId, password: string, consumed: nat)
    | ConfirmClassify(token: Token)
    | Finished(response: Response)

  function Next(h: Handler, draw: Token): Stmt
    requires !h.Finished?
  {
    match h
    case IssueDelete(c) => DeleteTokens(c.user)
    case IssueName(_, _) => NewToken(draw)
    case IssueStamp(_, _, _) => ReadClock
    case IssueInsert(c, _, t, expires) => InsertToken(t, c.user, expires, c.began)
    case IssueReturn(_) => Return
    case ConfirmConsume(t, _) => Consume(t)
    case ConfirmWrite(t, u, password, k) => SetPassword(u, password, t, k)
    case ConfirmClassify(t) => FindToken(t)
  }

  function Resume(h: Handler, draw: Token, reply: Reply): Handler
    requires !h.Finished?
  {
    match (h, reply)
    case (IssueDelete(c), Logged(i)) => IssueName(c, i)
    case (IssueName(c, since), Rows) => IssueStamp(c, since, draw)
    case (IssueStamp(c, since, t), Clock(at)) => IssueInsert(c, since, t, at + RESET_TOKEN_TTL)
    case (IssueInsert(_, _, t, _), Logged(_)) => IssueReturn(Issued(t))
    case (IssueInsert(c, _, _, _), Violation(i)) =>
      var again := c.(blocks := c.blocks + [i]);
      if |again.blocks| < MAX_ATTEMPTS then IssueDelete(again) else IssueReturn(Contention(again))
    case (IssueReturn(r), _) => Finished(r)
    case (ConfirmConsume(t, password), Owner(Some(u), k)) => ConfirmWrite(t, u, password, k)
    case (ConfirmConsume(t, _), Owner(None, _)) => ConfirmClassify(t)
    case (ConfirmWrite(_, _, _, _), _) => Finished(ResetDone)
    case (ConfirmClassify(_), Found(refusal)) => Finished(Rejected(refusal))
    case _ => IssueReturn(Failure)
  }

  // ---- the machine -------------------------------------------------------------------

  datatype State = State(db: Db, procs: map<Pid, Handler>)

  datatype Action =
    | Tick(now: Time)
    | ArriveIssue(pid: Pid, user: UserId)
    | ArriveConfirm(pid: Pid, token: Token, password: string)
    | Step(pid: Pid, draw: Token)
    | Fail(pid: Pid)                       // a request's next statement fails, or the request dies
    | Register(user: UserId, password: string)
    | Erase(user: UserId)

  /** What becomes of a request whose next statement fails without effect: it
      answers with an error, also if it had already superseded the old tokens or
      consumed its own. */
  function Failing(h: Handler): Handler {
    match h
    case IssueDelete(_) => IssueReturn(Failure)
    case IssueName(_, _) => IssueReturn(Failure)
    case IssueStamp(_, _, _) => IssueReturn(Failure)
    case IssueInsert(_, _, _, _) => IssueReturn(Failure)
    case ConfirmConsume(_, _) => Finished(Failure)
    case ConfirmWrite(_, _, _, _) => Finished(Failure)
    case ConfirmClassify(_) => Finished(Failure)
    case _ => h
  }

  /** One action; an action that is not possible changes nothing. A request
      cannot present a token that is drawn but not stored yet: nobody but the
      call that drew it knows it. */
  ghost function Apply(s: State, a: Action): State {
    match a
    case Tick(t) => if s.db.now <= t then s.(db := s.db.(now := t)) else s
    case ArriveIssue(p, u) =>
      if p in s.procs || u !in s.db.passwords then s  // an unknown address is a silent no-op
      else State(s.db.(log := s.db.log + [Began(p, u)]), s.procs[p := IssueDelete(Call(u, |s.db.log|, []))])
    case ArriveConfirm(p, t, password) =>
      if p in s.procs || (t in s.db.issued && t !in s.db.birth) then s
      else State(s.db.(presented := s.db.presented + {t}), s.procs[p := ConfirmConsume(t, password)])
    case Fail(p) => if p in s.procs then s.(procs := s.procs[p := Failing(s.procs[p])]) else s
    case Step(p, draw) => if p in s.procs && !s.procs[p].Finished? then Advance(s, p, draw) else s
    case Register(u, password) =>
      if u in s.db.passwords then s else s.(db := s.db.(passwords := s.db.passwords[u := password]))
    case Erase(u) =>
      s.(db := s.db.(passwords := s.db.passwords - {u},
                     tokens := map t | t in s.db.tokens && s.db.tokens[t].user != u :: s.db.tokens[t],
                     log := s.db.log + [Erased(u)]))
  }

  ghost function Advance(s: State, p: Pid, draw: Token): State
    requires p in s.procs && !s.procs[p].Finished?
  {
    var h := s.procs[p];
    var (db, reply) := Exec(s.db, p, Next(h, draw));
    if reply.Blocked? then s else State(db, s.procs[p := Resume(h, draw, reply)])
  }

  ghost function Run(s: State, schedule: seq<Action>): State
    decreases |schedule|
  {
    if schedule == [] then s else Run(Apply(s, schedule[0]), schedule[1..])
  }

  /** No call yet and no token ever stored. */
  predicate Fresh(s: State) {
    && s.procs == map[] && s.db.tokens == map[] && s.db.issued == map[] && s.db.presented == {}
    && s.db.birth == map[] && s.db.used == map[] && s.db.log == []
  }
}
