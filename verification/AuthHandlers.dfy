/** The handlers of internal/auth/handler.go and twofactor.go as step programs:
    what each does next (`Next`) and how it goes on with the answer (`Resume`).
    Any statement may fail, and any request may die, before it has an effect. */
module AuthHandlers {
  import opened Totp
  import opened Ids
  import opened AuthDb

  /** The code generator, and the TOTP kill switch. */
  datatype Config = Config(g: Generator, totpOn: bool)

  /** Requests behind sessionRequired. */
  datatype Request =
    | LogOut
    | LogOutAll
    | ChangePassword(current: string, next: string)
    | ChangeEmail(current: string)
    | Enroll(secret: string, nonce: nat)
    | Confirm(code: string, password: string)
    | Disable(code: string, password: string)
    | Erase(code: string, password: string)

  /** What acceptTOTPCode is called for. */
  datatype Goal = ToConfirm | ToDisable | ToErase

  /** What DBSessionStore.Create is called for: a login that still owes a code,
      a complete login, or killAndReissue, whose failure to reissue is only logged. */
  datatype Kind = HalfLogin | FullLogin | Reissue

  function IsVerified(kind: Kind): bool {
    kind != HalfLogin
  }

  function LoginKind(cfg: Config, row: User): Kind {
    if cfg.totpOn && row.enabled then HalfLogin else FullLogin
  }

  datatype Response =
    | Verified(token: Token)
    | LoggedIn(token: Token, verified: bool)
    | InvalidCode(attempts: nat)
    | TooManyAttempts
    | LockFailed(token: Token)  // answered like TooManyAttempts, but the lockout DELETE failed
    | SessionExpired
    | Done
    | Uncontained  // done, with a warning that the other sessions survived
    | Refused
    | ServerError

  datatype Handler =
    // POST /v1/auth/2fa/verify
    | VerifyGate(cookie: Token, code: string)
    | VerifyLoad(cookie: Token, code: string, user: UserId)
    | VerifyCheck(cookie: Token, code: string, user: UserId, secret: string)
    | VerifyAccept(cookie: Token, user: UserId, use: CodeUse, counter: int)
    | VerifyName(cookie: Token, user: UserId, accepted: nat)
    | VerifyRotate(cookie: Token, user: UserId, accepted: nat, token: Token)
    | VerifyFail(cookie: Token)
    | VerifyLock(cookie: Token)
    // POST /v1/auth/login
    | LoginLoad(user: UserId, password: string)
    // DBSessionStore.Create
    | CreateName(user: UserId, kind: Kind)
    | CreatePurge(user: UserId, kind: Kind, token: Token)
    | CreateStamp(user: UserId, kind: Kind, token: Token)
    | CreateInsert(user: UserId, kind: Kind, token: Token, expires: Time)
    // everything behind sessionRequired
    | Gate(cookie: Token, req: Request)
    | Load(user: UserId, req: Request)
    | Check(user: UserId, goal: Goal, code: string, secret: string)
    | Accept(user: UserId, goal: Goal, use: CodeUse, counter: int)
    | Store(user: UserId, sealed: Sealed)
    | Arm(user: UserId)
    | Disarm(user: UserId)
    | Remove(user: UserId)
    | Overwrite(user: UserId, password: string)
    | KillAndReissue(user: UserId)
    | KillAll(user: UserId)
    | KillOne(cookie: Token)
    | Finished(response: Response)

  /** The statement a request is about to run; `draw` is what the token
      generator would return. */
  function Next(h: Handler, draw: Token): Stmt
    requires !h.Finished?
  {
    match h
    case VerifyGate(cookie, _) => FindPending(cookie)
    case VerifyLoad(_, _, u) => FindUser(u)
    case VerifyCheck(_, _, _, _) => ReadClock
    case VerifyAccept(_, u, use, c) => AdvanceCounter(u, use, c)
    case VerifyName(_, _, _) => NewToken(draw)
    case VerifyRotate(cookie, u, accepted, t) => RotateSession(cookie, t, u, accepted)
    case VerifyFail(cookie) => BumpAttempts(cookie)
    case VerifyLock(cookie) => DeleteSession(cookie)
    case LoginLoad(u, _) => FindUser(u)
    case CreateName(_, _) => NewToken(draw)
    case CreatePurge(_, _, _) => PurgeExpired
    case CreateStamp(_, _, _) => ReadClock
    case CreateInsert(u, kind, t, expires) => InsertSession(t, u, IsVerified(kind), expires)
    case Gate(cookie, _) => FindSession(cookie)
    case Load(u, _) => FindUser(u)
    case Check(_, _, _, _) => ReadClock
    case Accept(u, _, use, c) => AdvanceCounter(u, use, c)
    case Store(u, sealed) => StoreSecret(u, sealed)
    case Arm(u) => EnableTotp(u)
    case Disarm(u) => WipeTotp(u)
    case Remove(u) => DeleteUser(u)
    case Overwrite(u, p) => SetPassword(u, p)
    case KillAndReissue(u) => DeleteSessionsOf(u)
    case KillAll(u) => DeleteSessionsOf(u)
    case KillOne(cookie) => DeleteSession(cookie)
  }

  /** handleVerify2FA, recordVerifyFailure and pendingSessionRequired. */
  function ResumeVerify(cfg: Config, h: Handler, draw: Token, reply: Reply): Handler {
    match (h, reply)
    case (VerifyGate(cookie, code), Owner(Some(u))) => VerifyLoad(cookie, code, u)
    case (VerifyGate(_, _), _) => Finished(SessionExpired)
    case (VerifyLoad(cookie, code, u), Row(Some(row))) =>
      (match DecryptSecret(row.secret)
       case Some(secret) => VerifyCheck(cookie, code, u, secret)
       case None => VerifyFail(cookie))
    case (VerifyLoad(cookie, _, _), _) => VerifyFail(cookie)
    case (VerifyCheck(cookie, code, u, secret), Clock(at)) =>
      var use := CodeUse(secret, code, StepOf(at));
      (match VerdictOf(cfg.g, use)
       case Some(c) => VerifyAccept(cookie, u, use, c)
       case None => VerifyFail(cookie))
    case (VerifyAccept(cookie, u, _, _), Logged(Some(i))) => VerifyName(cookie, u, i)
    case (VerifyAccept(cookie, _, _, _), Logged(None)) => VerifyFail(cookie)
    case (VerifyName(cookie, u, i), Rows(_)) => VerifyRotate(cookie, u, i, draw)
    case (VerifyRotate(_, _, _, t), Rows(n)) => Finished(if n == 0 then SessionExpired else Verified(t))
    case (VerifyFail(_), Attempts(None)) => Finished(SessionExpired)
    case (VerifyFail(cookie), Attempts(Some(n))) =>
      if n >= MAX_TOTP_ATTEMPTS then VerifyLock(cookie) else Finished(InvalidCode(n))
    case (VerifyLock(_), _) => Finished(TooManyAttempts)
    case _ => Finished(ServerError)
  }

  /** handleLogin after the password check, and DBSessionStore.Create. */
  function ResumeCreate(cfg: Config, h: Handler, draw: Token, reply: Reply): Handler {
    match (h, reply)
    case (LoginLoad(u, password), Row(Some(row))) =>
      if row.password == password then CreateName(u, LoginKind(cfg, row)) else Finished(Refused)
    case (LoginLoad(_, _), _) => Finished(Refused)
    case (CreateName(u, kind), Rows(_)) => CreatePurge(u, kind, draw)
    case (CreatePurge(u, kind, t), _) => CreateStamp(u, kind, t)
    case (CreateStamp(u, kind, t), Clock(at)) => CreateInsert(u, kind, t, at + SessionTtl(IsVerified(kind)))
    case (CreateInsert(_, kind, t, _), Rows(_)) => Finished(LoggedIn(t, IsVerified(kind)))
    case (CreateInsert(_, Reissue, _, _), _) => Finished(Done)
    case _ => Finished(ServerError)
  }

  /** The requests that first load the user row: what they do with it. */
  function ResumeLoad(cfg: Config, u: UserId, req: Request, row: User): Handler {
    match req
    case ChangePassword(current, next) =>
      if row.password == current then Overwrite(u, next) else Finished(Refused)
    case ChangeEmail(current) =>
      if row.password == current then KillAndReissue(u) else Finished(Refused)
    case Enroll(secret, nonce) =>
      Store(u, Intact(secret, nonce))
    case Confirm(code, password) =>
      if row.password != password then Finished(Refused) else BeginCheck(u, ToConfirm, code, row)
    case Disable(code, password) =>
      if row.password != password || !row.enabled || row.secret.None? then Finished(Refused)
      else BeginCheck(u, ToDisable, code, row)
    case Erase(code, password) =>
      if row.password != password then Finished(Refused)
      else if cfg.totpOn && row.enabled && row.secret.Some? then BeginCheck(u, ToErase, code, row)
      else Remove(u)
    case _ => Finished(ServerError)
  }

  /** acceptTOTPCode up to the clock reading. */
  function BeginCheck(u: UserId, goal: Goal, code: string, row: User): Handler {
    match DecryptSecret(row.secret)
    case Some(secret) => Check(u, goal, code, secret)
    case None => Finished(Refused)
  }

  function ResumeAuthed(cfg: Config, h: Handler, reply: Reply): Handler {
    match (h, reply)
    case (Gate(cookie, LogOut), Owner(Some(_))) => KillOne(cookie)
    case (Gate(_, LogOutAll), Owner(Some(u))) => KillAll(u)
    case (Gate(_, req), Owner(Some(u))) => Load(u, req)
    case (Gate(_, _), _) => Finished(SessionExpired)
    case (Load(u, req), Row(Some(row))) => ResumeLoad(cfg, u, req, row)
    case (Check(u, goal, code, secret), Clock(at)) =>
      var use := CodeUse(secret, code, StepOf(at));
      (match VerdictOf(cfg.g, use)
       case Some(c) => Accept(u, goal, use, c)
       case None => Finished(Refused))
    case (Accept(u, goal, _, _), Logged(Some(_))) =>
      (match goal case ToConfirm => Arm(u) case ToDisable => Disarm(u) case ToErase => Remove(u))
    case (Accept(_, _, _, _), _) => Finished(Refused)
    case (Store(_, _), Rows(n)) => Finished(if n == 0 then Refused else Done)
    case (Arm(_), Rows(n)) => Finished(if n == 0 then Refused else Done)
    case (Overwrite(u, _), _) => KillAndReissue(u)
    case (KillAndReissue(u), _) => CreateName(u, Reissue)
    case (Disarm(_), _) => Finished(Done)
    case (Remove(_), _) => Finished(Done)
    case (KillAll(_), _) => Finished(Done)
    case (KillOne(_), _) => Finished(Done)
    case _ => Finished(ServerError)
  }

  function Resume(cfg: Config, h: Handler, draw: Token, reply: Reply): Handler
    requires !h.Finished?
  {
    match h
    case VerifyGate(_, _) | VerifyLoad(_, _, _) | VerifyCheck(_, _, _, _) | VerifyAccept(_, _, _, _)
       | VerifyName(_, _, _) | VerifyRotate(_, _, _, _) | VerifyFail(_) | VerifyLock(_) =>
      ResumeVerify(cfg, h, draw, reply)
    case LoginLoad(_, _) | CreateName(_, _) | CreatePurge(_, _, _) | CreateStamp(_, _, _) | CreateInsert(_, _, _, _) =>
      ResumeCreate(cfg, h, draw, reply)
    case _ =>
      ResumeAuthed(cfg, h, reply)
  }

  // ---- the machine: any number of requests, arbitrarily interleaved -----------------

  datatype Call =
    | Verify(cookie: Token, code: string)
    | Login(user: UserId, password: string)
    | Authed(cookie: Token, req: Request)

  /** The first step of a call; with the kill switch off the 2FA routes are not mounted. */
  function Entry(cfg: Config, call: Call): Handler {
    match call
    case Verify(cookie, code) => if cfg.totpOn then VerifyGate(cookie, code) else Finished(Refused)
    case Login(u, password) => LoginLoad(u, password)
    case Authed(cookie, req) =>
      if NotMounted(cfg, req) then Finished(Refused) else Gate(cookie, req)
  }

  predicate NotMounted(cfg: Config, req: Request) {
    !cfg.totpOn && (req.Enroll? || req.Confirm? || req.Disable?)
  }

  datatype State = State(db: Db, procs: map<Pid, Handler>)

  datatype Action =
    | Tick(now: Time)                              // the clock advances
    | Arrive(pid: Pid, call: Call)                 // a request comes in
    | Step(pid: Pid, draw: Token)                 // a request runs its next statement
    | Fail(pid: Pid)                               // a request's next statement fails, or the request dies
    | Register(user: UserId, password: string)     // registration
    | ResetPassword(user: UserId, password: string)// ConfirmReset's password write
    | Evict(user: UserId)                          // session wipe by ConfirmReset or a demotion

  /** What becomes of a request whose next statement fails without effect: Create
      goes on without its purge; recordVerifyFailure, handleLogout and a failed
      reissue answer as if nothing had happened; killAndReissue gives up;
      acceptTOTPCode says no; everything else is an internal error. */
  function Failing(h: Handler): Handler {
    match h
    case CreatePurge(u, kind, t) => CreateStamp(u, kind, t)
    case CreateName(_, Reissue) => Finished(Done)
    case CreateInsert(_, Reissue, _, _) => Finished(Done)
    case VerifyLock(t) => Finished(LockFailed(t))
    case KillOne(_) => Finished(Done)
    case KillAndReissue(_) => Finished(Uncontained)
    case Accept(_, _, _, _) => Finished(Refused)
    case Finished(_) => h
    case _ => Finished(ServerError)
  }

  /** One action; an action that is not possible changes nothing. */
  function Apply(cfg: Config, s: State, a: Action): State {
    match a
    case Tick(t) => if s.db.now <= t then s.(db := s.db.(now := t)) else s
    case Arrive(p, call) => if p in s.procs then s else s.(procs := s.procs[p := Entry(cfg, call)])
    case Step(p, draw) => if p in s.procs && !s.procs[p].Finished? then Advance(cfg, s, p, draw) else s
    case Fail(p) => if p in s.procs then s.(procs := s.procs[p := Failing(s.procs[p])]) else s
    case Register(u, password) => s.(db := Exec(s.db, 0, InsertUser(u, password)).0)
    case ResetPassword(u, password) => s.(db := Exec(s.db, 0, SetPassword(u, password)).0)
    case Evict(u) => s.(db := Exec(s.db, 0, DeleteSessionsOf(u)).0)
  }

  function Advance(cfg: Config, s: State, p: Pid, draw: Token): State
    requires p in s.procs && !s.procs[p].Finished?
  {
    var h := s.procs[p];
    var (db, reply) := Exec(s.db, p, Next(h, draw));
    if reply.Blocked? then s else State(db, s.procs[p := Resume(cfg, h, draw, reply)])
  }

  function Run(cfg: Config, s: State, schedule: seq<Action>): State
    decreases |schedule|
  {
    if schedule == [] then s else Run(cfg, Apply(cfg, s, schedule[0]), schedule[1..])
  }

  lemma {:induction false} RunConcat(cfg: Config, s: State, a: seq<Action>, b: seq<Action>)
    ensures Run(cfg, s, a + b) == Run(cfg, Run(cfg, s, a), b)
    decreases |a|
  {
    if a == [] {
      assert a + b == b;
    } else {
      assert (a + b)[1..] == a[1..] + b;
      RunConcat(cfg, Apply(cfg, s, a[0]), a[1..], b);
    }
  }

  /** No request yet, no session ever, nobody enrolled: the state after the migrations. */
  predicate Fresh(s: State) {
    && s.procs == map[] && s.db.sessions == map[] && s.db.issued == map[] && s.db.birth == map[] && s.db.log == []
    && forall u | u in s.db.users ::
        s.db.users[u].secret.None? && !s.db.users[u].enabled && s.db.users[u].lastCounter == 0
  }
}
