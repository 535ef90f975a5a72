/** One request run from start to end with nothing in between: a special case
    of a schedule, and the specification of the imperative handlers. */
module AuthSolo {
  import opened Outcomes
  import opened Totp
  import opened Ids
  import opened AuthDb
  import opened AuthHandlers

  /** How many statements a request has left at most. */
  function Remaining(h: Handler): nat {
    match h
    case VerifyGate(_, _) => 8
    case VerifyLoad(_, _, _) => 7
    case VerifyCheck(_, _, _, _) => 6
    case VerifyAccept(_, _, _, _) => 5
    case VerifyName(_, _, _) => 4
    case VerifyRotate(_, _, _, _) => 3
    case VerifyFail(_) => 2
    case VerifyLock(_) => 1
    case LoginLoad(_, _) => 5
    case CreateName(_, _) => 4
    case CreatePurge(_, _, _) => 3
    case CreateStamp(_, _, _) => 2
    case CreateInsert(_, _, _, _) => 1
    case Gate(_, _) => 8
    case Load(_, _) => 7
    case Check(_, _, _, _) => 3
    case Accept(_, _, _, _) => 2
    case Store(_, _) => 1
    case Arm(_) => 1
    case Disarm(_) => 1
    case Remove(_) => 1
    case Overwrite(_, _) => 6
    case KillAndReissue(_) => 5
    case KillAll(_) => 1
    case KillOne(_) => 1
    case Finished(_) => 0
  }

  lemma ResumeDecreases(cfg: Config, h: Handler, draw: Token, reply: Reply)
    requires !h.Finished?
    ensures Remaining(Resume(cfg, h, draw, reply)) < Remaining(h)
  {
    match h
    case VerifyGate(_, _) | VerifyLoad(_, _, _) | VerifyCheck(_, _, _, _) | VerifyAccept(_, _, _, _)
       | VerifyName(_, _, _) | VerifyRotate(_, _, _, _) | VerifyFail(_) | VerifyLock(_) =>
      VerifyDecreases(cfg, h, draw, reply);
    case LoginLoad(_, _) | CreateName(_, _) | CreatePurge(_, _, _) | CreateStamp(_, _, _) | CreateInsert(_, _, _, _) =>
    case _ => AuthedDecreases(cfg, h, reply);
  }

  lemma VerifyDecreases(cfg: Config, h: Handler, draw: Token, reply: Reply)
    requires h.VerifyGate? || h.VerifyLoad? || h.VerifyCheck? || h.VerifyAccept? || h.VerifyName? || h.VerifyRotate?
      || h.VerifyFail? || h.VerifyLock?
    ensures Remaining(ResumeVerify(cfg, h, draw, reply)) < Remaining(h)
  {
  }

  lemma AuthedDecreases(cfg: Config, h: Handler, reply: Reply)
    requires !h.Finished?
    ensures Remaining(ResumeAuthed(cfg, h, reply)) < Remaining(h)
  {
  }

  /** Which statements fail, of those whose failure is not the end of the request:
      the lockout DELETE, killAndReissue's wipe, the DELETE of a logout, the counter
      UPDATE of acceptTOTPCode, and in Create the generator call, the purge and the
      INSERT, which a reissue survives. */
  datatype Faults =
    Faults(lock: bool, wipe: bool, logout: bool, accept: bool, draw: bool, purge: bool, insert: bool)

  const NO_FAULTS := Faults(false, false, false, false, false, false, false)

  predicate Hits(f: Faults, h: Handler) {
    || (f.lock && h.VerifyLock?) || (f.wipe && h.KillAndReissue?) || (f.logout && h.KillOne?)
    || (f.accept && h.Accept?)
    || (f.draw && h.CreateName?) || (f.purge && h.CreatePurge?) || (f.insert && h.CreateInsert?)
  }

  /** Request p run alone with these faults; `draw` is the token its generator
      call returns. */
  function Solo(cfg: Config, db: Db, p: Pid, h: Handler, draw: Token, f: Faults): (Db, Response)
    decreases Remaining(h)
  {
    if h.Finished? then (db, h.response)
    else if Hits(f, h) then Solo(cfg, db, p, Failing(h), draw, f)
    else
      var (db', reply) := Exec(db, p, Next(h, draw));
      if reply.Blocked? then (db, ServerError)
      else
        ResumeDecreases(cfg, h, draw, reply);
        Solo(cfg, db', p, Resume(cfg, h, draw, reply), draw, f)
  }

  /** The request still has its generator call ahead of it. */
  predicate WillDraw(h: Handler) {
    || h.VerifyGate? || h.VerifyLoad? || h.VerifyCheck? || h.VerifyAccept? || h.VerifyName?
    || h.LoginLoad? || h.CreateName? || h.Gate? || h.Load? || h.Overwrite? || h.KillAndReissue?
  }

  function Move(s: State, p: Pid, draw: Token, f: Faults): Action
    requires p in s.procs
  {
    if Hits(f, s.procs[p]) then Fail(p) else Step(p, draw)
  }

  /** The schedule of n actions that runs only request p. */
  function Moves(cfg: Config, s: State, p: Pid, draw: Token, f: Faults, n: nat): seq<Action>
    requires p in s.procs
    decreases n
  {
    if n == 0 then [] else [Move(s, p, draw, f)] + Moves(cfg, Apply(cfg, s, Move(s, p, draw, f)), p, draw, f, n - 1)
  }

  lemma MovesOnce(cfg: Config, s: State, p: Pid, draw: Token, f: Faults, n: nat)
    requires p in s.procs && n > 0
    ensures var s' := Apply(cfg, s, Move(s, p, draw, f));
      Run(cfg, s, Moves(cfg, s, p, draw, f, n)) == Run(cfg, s', Moves(cfg, s', p, draw, f, n - 1))
  {
    var s' := Apply(cfg, s, Move(s, p, draw, f));
    assert Moves(cfg, s, p, draw, f, n)[1..] == Moves(cfg, s', p, draw, f, n - 1);
  }

  /** Running a request alone is running the schedule of its own moves. */
  lemma {:induction false} SoloIsASchedule(cfg: Config, s: State, p: Pid, draw: Token, f: Faults, n: nat)
    requires p in s.procs && (WillDraw(s.procs[p]) ==> draw !in s.db.issued) && n >= Remaining(s.procs[p])
    ensures var (db, response) := Solo(cfg, s.db, p, s.procs[p], draw, f);
      Run(cfg, s, Moves(cfg, s, p, draw, f, n)) == State(db, s.procs[p := Finished(response)])
    decreases n
  {
    var h := s.procs[p];
    if h.Finished? { assert s.procs[p := h] == s.procs; }
    if n > 0 {
      var s' := Apply(cfg, s, Move(s, p, draw, f));
      SoloMove(cfg, s, p, draw, f);
      MovesOnce(cfg, s, p, draw, f, n);
      SoloIsASchedule(cfg, s', p, draw, f, n - 1);
    }
  }

  lemma SoloMove(cfg: Config, s: State, p: Pid, draw: Token, f: Faults)
    requires p in s.procs && (WillDraw(s.procs[p]) ==> draw !in s.db.issued)
    ensures var s' := Apply(cfg, s, Move(s, p, draw, f));
      && p in s'.procs && (!s.procs[p].Finished? ==> Remaining(s'.procs[p]) < Remaining(s.procs[p]))
      && (s.procs[p].Finished? ==> s' == s)
      && (WillDraw(s'.procs[p]) ==> draw !in s'.db.issued)
      && Solo(cfg, s'.db, p, s'.procs[p], draw, f) == Solo(cfg, s.db, p, s.procs[p], draw, f)
      && (forall response :: s'.procs[p := Finished(response)] == s.procs[p := Finished(response)])
  {
    var h := s.procs[p];
    if !h.Finished? && !Hits(f, h) {
      var (db', reply) := Exec(s.db, p, Next(h, draw));
      ResumeDecreases(cfg, h, draw, reply);
      ResumeDraws(cfg, s.db, p, h, draw);
      Goes(cfg, s.db, p, h, draw, f);
      assert Apply(cfg, s, Step(p, draw)) == State(db', s.procs[p := Resume(cfg, h, draw, reply)]);
    }
  }

  lemma ResumeDraws(cfg: Config, db: Db, p: Pid, h: Handler, draw: Token)
    requires !h.Finished? && (WillDraw(h) ==> draw !in db.issued)
    ensures var (db', reply) := Exec(db, p, Next(h, draw));
      !reply.Blocked? && (WillDraw(Resume(cfg, h, draw, reply)) ==> draw !in db'.issued)
  {
  }

  /** One statement of a request run alone. */
  lemma Goes(cfg: Config, db: Db, p: Pid, h: Handler, draw: Token, f: Faults)
    requires !h.Finished? && !Hits(f, h) && !Exec(db, p, Next(h, draw)).1.Blocked?
    ensures var (db', reply) := Exec(db, p, Next(h, draw));
      Solo(cfg, db, p, h, draw, f) == Solo(cfg, db', p, Resume(cfg, h, draw, reply), draw, f)
  {
  }

  lemma Falls(cfg: Config, db: Db, p: Pid, h: Handler, draw: Token, f: Faults)
    requires Hits(f, h)
    ensures Solo(cfg, db, p, h, draw, f) == Solo(cfg, db, p, Failing(h), draw, f)
  {
  }

  // ---- what each request does to the tables ------------------------------------------------

  datatype Effect = Effect(users: map<UserId, User>, sessions: map<Token, Session>, response: Response)

  function SoloEffect(cfg: Config, db: Db, p: Pid, h: Handler, draw: Token, f: Faults): Effect {
    var (db', response) := Solo(cfg, db, p, h, draw, f);
    Effect(db'.users, db'.sessions, response)
  }

  /** The counter a code would be accepted for right now, given the user row
      the request loaded and the counter the table stores. */
  function AcceptableCounter(cfg: Config, db: Db, u: UserId, stored: Option<Sealed>, code: string): Option<int> {
    match DecryptSecret(stored)
    case None => None
    case Some(secret) =>
      match VerdictOf(cfg.g, CodeUse(secret, code, StepOf(db.now)))
      case Some(c) => if u in db.users && db.users[u].lastCounter < c then Some(c) else None
      case None => None
  }

  /** The counter acceptTOTPCode accepts: none if its UPDATE fails. */
  function AcceptedNow(cfg: Config, db: Db, u: UserId, stored: Option<Sealed>, code: string, f: Faults): Option<int> {
    if f.accept then None else AcceptableCounter(cfg, db, u, stored, code)
  }

  /** recordVerifyFailure on a live pending session: count, and lock at the fifth,
      unless the DELETE fails. */
  function FailEffect(db: Db, cookie: Token, f: Faults): Effect {
    if !LivePending(db, cookie) then Effect(db.users, db.sessions, SessionExpired)
    else
      var n := db.sessions[cookie].attempts + 1;
      if n < 5 then Effect(db.users, db.sessions[cookie := db.sessions[cookie].(attempts := n)], InvalidCode(n))
      else if f.lock then
        Effect(db.users, db.sessions[cookie := db.sessions[cookie].(attempts := n)], LockFailed(cookie))
      else Effect(db.users, db.sessions - {cookie}, TooManyAttempts)
  }

  function WithCounter(db: Db, u: UserId, c: int): map<UserId, User>
    requires u in db.users
  {
    db.users[u := db.users[u].(lastCounter := c)]
  }

  function VerifyEffect(cfg: Config, db: Db, cookie: Token, code: string, draw: Token, f: Faults): Effect {
    if !LivePending(db, cookie) then Effect(db.users, db.sessions, SessionExpired)
    else
      var u := db.sessions[cookie].user;
      if u !in db.users then FailEffect(db, cookie, f)
      else match AcceptableCounter(cfg, db, u, db.users[u].secret, code)
        case None => FailEffect(db, cookie, f)
        case Some(c) =>
          MintEffect(db, cookie, u, c, draw)
  }

  /** The guard moves up, and the pending session is exchanged for a verified one. */
  function MintEffect(db: Db, cookie: Token, u: UserId, c: int, draw: Token): Effect
    requires u in db.users
  {
    Effect(WithCounter(db, u, c), (db.sessions - {cookie})[draw := Session(u, true, 0, db.now + 43200)], Verified(draw))
  }

  function Purged(db: Db): map<Token, Session> {
    map t | t in db.sessions && !(db.sessions[t].expires < db.now) :: db.sessions[t]
  }

  /** DBSessionStore.Create: expired rows go, if the purge works, and one new
      row of the right class and lifetime comes, unless there is no token for it
      or its INSERT fails. */
  function CreateEffect(db: Db, u: UserId, kind: Kind, draw: Token, f: Faults): Effect {
    var rows := if f.purge then db.sessions else Purged(db);
    if f.draw then Effect(db.users, db.sessions, NotCreated(kind))
    else if f.insert || u !in db.users || draw in rows then Effect(db.users, rows, NotCreated(kind))
    else
      var expires := db.now + (if IsVerified(kind) then 43200 else 300);
      Effect(db.users, rows[draw := Session(u, IsVerified(kind), 0, expires)], LoggedIn(draw, IsVerified(kind)))
  }

  /** A login whose session could not be stored is an error; a reissue is done
      once the other sessions are gone. */
  function NotCreated(kind: Kind): Response {
    if kind == Reissue then Done else ServerError
  }

  function LoginEffect(cfg: Config, db: Db, u: UserId, password: string, draw: Token, f: Faults): Effect {
    if u !in db.users || db.users[u].password != password then Effect(db.users, db.sessions, Refused)
    else CreateEffect(db, u, LoginKind(cfg, db.users[u]), draw, f)
  }

  /** killAndReissue: of the user's sessions only the new one is left, unless the
      wipe fails. */
  function ReissueEffect(db: Db, u: UserId, draw: Token, f: Faults): Effect {
    if f.wipe then Effect(db.users, db.sessions, Uncontained)
    else CreateEffect(db.(sessions := Without(db.sessions, u)), u, Reissue, draw, f)
  }

  function ChangePasswordEffect(db: Db, u: UserId, current: string, next: string, draw: Token, f: Faults): Effect {
    if u !in db.users then Effect(db.users, db.sessions, ServerError)
    else if db.users[u].password != current then Effect(db.users, db.sessions, Refused)
    else ReissueEffect(db.(users := db.users[u := db.users[u].(password := next)]), u, draw, f)
  }

  /** The session part of an e-mail change. */
  function ChangeEmailEffect(db: Db, u: UserId, current: string, draw: Token, f: Faults): Effect {
    if u !in db.users then Effect(db.users, db.sessions, ServerError)
    else if db.users[u].password != current then Effect(db.users, db.sessions, Refused)
    else ReissueEffect(db, u, draw, f)
  }

  function EnrollEffect(db: Db, u: UserId, secret: string, nonce: nat): Effect {
    if u !in db.users then Effect(db.users, db.sessions, ServerError)
    else if db.users[u].enabled then Effect(db.users, db.sessions, Refused)
    else Effect(db.users[u := db.users[u].(secret := Some(Intact(secret, nonce)), enabled := false, lastCounter := 0)],
                db.sessions, Done)
  }

  function ConfirmEffect(cfg: Config, db: Db, u: UserId, code: string, password: string, f: Faults): Effect {
    if u !in db.users then Effect(db.users, db.sessions, ServerError)
    else if db.users[u].password != password then Effect(db.users, db.sessions, Refused)
    else match AcceptedNow(cfg, db, u, db.users[u].secret, code, f)
      case None => Effect(db.users, db.sessions, Refused)
      case Some(c) =>
        if db.users[u].enabled then Effect(WithCounter(db, u, c), db.sessions, Refused)
        else Effect(db.users[u := db.users[u].(lastCounter := c, enabled := true)], db.sessions, Done)
  }

  function DisableEffect(cfg: Config, db: Db, u: UserId, code: string, password: string, f: Faults): Effect {
    if u !in db.users then Effect(db.users, db.sessions, ServerError)
    else if db.users[u].password != password || !db.users[u].enabled || db.users[u].secret.None? then
      Effect(db.users, db.sessions, Refused)
    else match AcceptedNow(cfg, db, u, db.users[u].secret, code, f)
      case None => Effect(db.users, db.sessions, Refused)
      case Some(_) =>
        Effect(db.users[u := db.users[u].(secret := None, enabled := false, lastCounter := 0)], db.sessions, Done)
  }

  function EraseEffect(cfg: Config, db: Db, u: UserId, code: string, password: string, f: Faults): Effect {
    if u !in db.users then Effect(db.users, db.sessions, ServerError)
    else if db.users[u].password != password then Effect(db.users, db.sessions, Refused)
    else if cfg.totpOn && db.users[u].enabled && db.users[u].secret.Some?
            && AcceptedNow(cfg, db, u, db.users[u].secret, code, f).None? then
      Effect(db.users, db.sessions, Refused)
    else Effect(db.users - {u}, Without(db.sessions, u), Done)
  }

  /** The requests behind sessionRequired, once it has found the session's owner. */
  function RequestEffect(cfg: Config, db: Db, u: UserId, cookie: Token, req: Request, draw: Token, f: Faults): Effect {
    match req
    case LogOut => Effect(db.users, if f.logout then db.sessions else db.sessions - {cookie}, Done)
    case LogOutAll => Effect(db.users, Without(db.sessions, u), Done)
    case ChangePassword(current, next) => ChangePasswordEffect(db, u, current, next, draw, f)
    case ChangeEmail(current) => ChangeEmailEffect(db, u, current, draw, f)
    case Enroll(secret, nonce) => EnrollEffect(db, u, secret, nonce)
    case Confirm(code, password) => ConfirmEffect(cfg, db, u, code, password, f)
    case Disable(code, password) => DisableEffect(cfg, db, u, code, password, f)
    case Erase(code, password) => EraseEffect(cfg, db, u, code, password, f)
  }

  /** What a call does from its arrival to its answer. */
  function CallEffect(cfg: Config, db: Db, call: Call, draw: Token, f: Faults): Effect {
    match call
    case Verify(cookie, code) =>
      if cfg.totpOn then VerifyEffect(cfg, db, cookie, code, draw, f) else Effect(db.users, db.sessions, Refused)
    case Login(u, password) => LoginEffect(cfg, db, u, password, draw, f)
    case Authed(cookie, req) =>
      if NotMounted(cfg, req) then Effect(db.users, db.sessions, Refused)
      else if !(Live(db, cookie) && db.sessions[cookie].verified) then Effect(db.users, db.sessions, SessionExpired)
      else RequestEffect(cfg, db, db.sessions[cookie].user, cookie, req, draw, f)
  }

  // ---- the step programs have these effects --------------------------------------------------

  lemma {:induction false} FailAlone(cfg: Config, db: Db, p: Pid, cookie: Token, draw: Token, f: Faults)
    ensures SoloEffect(cfg, db, p, VerifyFail(cookie), draw, f) == FailEffect(db, cookie, f)
  {
    Goes(cfg, db, p, VerifyFail(cookie), draw, f);
    if LivePending(db, cookie) {
      var db1 := Exec(db, p, BumpAttempts(cookie)).0;
      if db.sessions[cookie].attempts + 1 >= 5 && f.lock {
        Falls(cfg, db1, p, VerifyLock(cookie), draw, f);
      } else if db.sessions[cookie].attempts + 1 >= 5 {
        Goes(cfg, db1, p, VerifyLock(cookie), draw, f);
        assert db1.sessions - {cookie} == db.sessions - {cookie};
      }
    }
  }

  lemma {:induction false} MintAlone(cfg: Config, db: Db, p: Pid, cookie: Token, u: UserId, use: CodeUse, c: int,
                                     draw: Token, f: Faults)
    requires LivePending(db, cookie) && u in db.users && db.users[u].lastCounter < c
    requires draw !in db.issued && draw !in db.sessions
    ensures SoloEffect(cfg, db, p, VerifyAccept(cookie, u, use, c), draw, f) == MintEffect(db, cookie, u, c, draw)
  {
    var db1 := db.(users := WithCounter(db, u, c), log := db.log + [Accepted(p, u, use, c)]);
    Goes(cfg, db, p, VerifyAccept(cookie, u, use, c), draw, f);
    RotateAlone(cfg, db1, p, cookie, u, |db.log|, draw, f);
  }

  lemma {:induction false} RotateAlone(cfg: Config, db: Db, p: Pid, cookie: Token, u: UserId, accepted: nat,
                                       draw: Token, f: Faults)
    requires LivePending(db, cookie) && u in db.users && draw !in db.issued && draw !in db.sessions
    ensures SoloEffect(cfg, db, p, VerifyName(cookie, u, accepted), draw, f)
         == Effect(db.users, (db.sessions - {cookie})[draw := Session(u, true, 0, db.now + 43200)], Verified(draw))
  {
    Goes(cfg, db, p, VerifyName(cookie, u, accepted), draw, f);
    Goes(cfg, db.(issued := db.issued[draw := p]), p, VerifyRotate(cookie, u, accepted, draw), draw, f);
  }

  /** handleVerify2FA run alone, for every cookie and code. */
  lemma {:induction false} VerifyAlone(cfg: Config, db: Db, p: Pid, cookie: Token, code: string, draw: Token, f: Faults)
    requires draw !in db.issued && draw !in db.sessions
    ensures SoloEffect(cfg, db, p, VerifyGate(cookie, code), draw, f) == VerifyEffect(cfg, db, cookie, code, draw, f)
  {
    Goes(cfg, db, p, VerifyGate(cookie, code), draw, f);
    if LivePending(db, cookie) { VerifyLoadAlone(cfg, db, p, cookie, code, db.sessions[cookie].user, draw, f); }
  }

  lemma {:induction false} VerifyLoadAlone(cfg: Config, db: Db, p: Pid, cookie: Token, code: string, u: UserId,
                                           draw: Token, f: Faults)
    requires draw !in db.issued && draw !in db.sessions
    requires LivePending(db, cookie) && u == db.sessions[cookie].user
    ensures SoloEffect(cfg, db, p, VerifyLoad(cookie, code, u), draw, f)
         == VerifyEffect(cfg, db, cookie, code, draw, f)
  {
    Goes(cfg, db, p, VerifyLoad(cookie, code, u), draw, f);
    if u in db.users && DecryptSecret(db.users[u].secret).Some? {
      VerifyCheckAlone(cfg, db, p, cookie, code, u, draw, f);
    } else {
      FailAlone(cfg, db, p, cookie, draw, f);
    }
  }

  lemma {:induction false} VerifyCheckAlone(cfg: Config, db: Db, p: Pid, cookie: Token, code: string, u: UserId,
                                            draw: Token, f: Faults)
    requires draw !in db.issued && draw !in db.sessions
    requires LivePending(db, cookie) && u == db.sessions[cookie].user
    requires u in db.users && DecryptSecret(db.users[u].secret).Some?
    ensures SoloEffect(cfg, db, p, VerifyCheck(cookie, code, u, DecryptSecret(db.users[u].secret).value), draw, f)
         == VerifyEffect(cfg, db, cookie, code, draw, f)
  {
    var secret := DecryptSecret(db.users[u].secret).value;
    var use := CodeUse(secret, code, StepOf(db.now));
    Goes(cfg, db, p, VerifyCheck(cookie, code, u, secret), draw, f);
    match VerdictOf(cfg.g, use)
    case None => FailAlone(cfg, db, p, cookie, draw, f);
    case Some(c) => VerifyAcceptAlone(cfg, db, p, cookie, u, use, c, draw, f);
  }

  lemma {:induction false} VerifyAcceptAlone(cfg: Config, db: Db, p: Pid, cookie: Token, u: UserId, use: CodeUse,
                                             c: int, draw: Token, f: Faults)
    requires draw !in db.issued && draw !in db.sessions
    requires LivePending(db, cookie) && u in db.users
    ensures SoloEffect(cfg, db, p, VerifyAccept(cookie, u, use, c), draw, f) ==
      if db.users[u].lastCounter < c then MintEffect(db, cookie, u, c, draw) else FailEffect(db, cookie, f)
  {
    if db.users[u].lastCounter < c {
      MintAlone(cfg, db, p, cookie, u, use, c, draw, f);
    } else {
      Goes(cfg, db, p, VerifyAccept(cookie, u, use, c), draw, f);
      FailAlone(cfg, db, p, cookie, draw, f);
    }
  }

  lemma {:induction false} CreateAlone(cfg: Config, db: Db, p: Pid, u: UserId, kind: Kind, draw: Token, f: Faults)
    requires draw !in db.issued
    ensures SoloEffect(cfg, db, p, CreateName(u, kind), draw, f) == CreateEffect(db, u, kind, draw, f)
  {
    if f.draw {
      Falls(cfg, db, p, CreateName(u, kind), draw, f);
    } else {
      NameGoes(cfg, db, p, u, kind, draw, f);
      var named := db.(issued := db.issued[draw := p]);
      assert Purged(named) == Purged(db);
      PurgeAlone(cfg, named, p, u, kind, draw, f);
    }
  }

  lemma NameGoes(cfg: Config, db: Db, p: Pid, u: UserId, kind: Kind, draw: Token, f: Faults)
    requires draw !in db.issued && !f.draw
    ensures SoloEffect(cfg, db, p, CreateName(u, kind), draw, f)
         == SoloEffect(cfg, db.(issued := db.issued[draw := p]), p, CreatePurge(u, kind, draw), draw, f)
  {
    Goes(cfg, db, p, CreateName(u, kind), draw, f);
  }

  lemma PurgeGoes(cfg: Config, db: Db, p: Pid, u: UserId, kind: Kind, draw: Token, f: Faults)
    ensures SoloEffect(cfg, db, p, CreatePurge(u, kind, draw), draw, f)
         == SoloEffect(cfg, if f.purge then db else db.(sessions := Purged(db)), p, CreateStamp(u, kind, draw), draw, f)
  {
    if f.purge {
      Falls(cfg, db, p, CreatePurge(u, kind, draw), draw, f);
    } else {
      Goes(cfg, db, p, CreatePurge(u, kind, draw), draw, f);
    }
  }

  lemma {:induction false} PurgeAlone(cfg: Config, db: Db, p: Pid, u: UserId, kind: Kind, draw: Token, f: Faults)
    requires !f.draw
    ensures SoloEffect(cfg, db, p, CreatePurge(u, kind, draw), draw, f) == CreateEffect(db, u, kind, draw, f)
  {
    PurgeGoes(cfg, db, p, u, kind, draw, f);
    StampAlone(cfg, if f.purge then db else db.(sessions := Purged(db)), p, u, kind, draw, f);
  }

  lemma {:induction false} StampAlone(cfg: Config, db: Db, p: Pid, u: UserId, kind: Kind, draw: Token, f: Faults)
    ensures SoloEffect(cfg, db, p, CreateStamp(u, kind, draw), draw, f)
         == if f.insert || u !in db.users || draw in db.sessions then Effect(db.users, db.sessions, NotCreated(kind))
            else Effect(db.users,
                        db.sessions[draw := Session(u, IsVerified(kind), 0, db.now + SessionTtl(IsVerified(kind)))],
                        LoggedIn(draw, IsVerified(kind)))
  {
    Goes(cfg, db, p, CreateStamp(u, kind, draw), draw, f);
    InsertAlone(cfg, db, p, u, kind, draw, db.now + SessionTtl(IsVerified(kind)), f);
  }

  lemma {:induction false} InsertAlone(cfg: Config, db: Db, p: Pid, u: UserId, kind: Kind, draw: Token, expires: Time,
                                       f: Faults)
    ensures SoloEffect(cfg, db, p, CreateInsert(u, kind, draw, expires), draw, f)
         == if f.insert || u !in db.users || draw in db.sessions then Effect(db.users, db.sessions, NotCreated(kind))
            else Effect(db.users, db.sessions[draw := Session(u, IsVerified(kind), 0, expires)],
                LoggedIn(draw, IsVerified(kind)))
  {
    var h := CreateInsert(u, kind, draw, expires);
    if f.insert { Falls(cfg, db, p, h, draw, f); } else { Goes(cfg, db, p, h, draw, f); }
  }

  lemma {:induction false} LoginAlone(cfg: Config, db: Db, p: Pid, u: UserId, password: string, draw: Token, f: Faults)
    requires draw !in db.issued
    ensures SoloEffect(cfg, db, p, LoginLoad(u, password), draw, f) == LoginEffect(cfg, db, u, password, draw, f)
  {
    Goes(cfg, db, p, LoginLoad(u, password), draw, f);
    if u in db.users { CreateAlone(cfg, db, p, u, LoginKind(cfg, db.users[u]), draw, f); }
  }

  lemma {:induction false} ReissueAlone(cfg: Config, db: Db, p: Pid, u: UserId, draw: Token, f: Faults)
    requires draw !in db.issued
    ensures SoloEffect(cfg, db, p, KillAndReissue(u), draw, f) == ReissueEffect(db, u, draw, f)
  {
    if f.wipe {
      Falls(cfg, db, p, KillAndReissue(u), draw, f);
    } else {
      Goes(cfg, db, p, KillAndReissue(u), draw, f);
      CreateAlone(cfg, Exec(db, p, DeleteSessionsOf(u)).0, p, u, Reissue, draw, f);
    }
  }

  lemma {:induction false} ChangePasswordAlone(cfg: Config, db: Db, p: Pid, u: UserId, current: string, next: string,
                                               draw: Token, f: Faults)
    requires draw !in db.issued
    ensures SoloEffect(cfg, db, p, Load(u, ChangePassword(current, next)), draw, f)
         == ChangePasswordEffect(db, u, current, next, draw, f)
  {
    Goes(cfg, db, p, Load(u, ChangePassword(current, next)), draw, f);
    if u in db.users && db.users[u].password == current { OverwriteAlone(cfg, db, p, u, next, draw, f); }
  }

  lemma {:induction false} OverwriteAlone(cfg: Config, db: Db, p: Pid, u: UserId, next: string, draw: Token, f: Faults)
    requires draw !in db.issued && u in db.users
    ensures SoloEffect(cfg, db, p, Overwrite(u, next), draw, f)
         == ReissueEffect(db.(users := db.users[u := db.users[u].(password := next)]), u, draw, f)
  {
    Goes(cfg, db, p, Overwrite(u, next), draw, f);
    ReissueAlone(cfg, Exec(db, p, SetPassword(u, next)).0, p, u, draw, f);
  }

  lemma {:induction false} EnrollAlone(cfg: Config, db: Db, p: Pid, u: UserId, secret: string, nonce: nat, draw: Token,
                                       f: Faults)
    ensures SoloEffect(cfg, db, p, Load(u, Enroll(secret, nonce)), draw, f) == EnrollEffect(db, u, secret, nonce)
  {
    Goes(cfg, db, p, Load(u, Enroll(secret, nonce)), draw, f);
    if u in db.users { Goes(cfg, db, p, Store(u, Intact(secret, nonce)), draw, f); }
  }

  /** The table after acceptTOTPCode accepted c from request p. */
  function Counted(cfg: Config, db: Db, p: Pid, u: UserId, stored: Option<Sealed>, code: string, c: int): Db
    requires DecryptSecret(stored).Some?
  {
    Exec(db, p, AdvanceCounter(u, CodeUse(DecryptSecret(stored).value, code, StepOf(db.now)), c)).0
  }

  /** acceptTOTPCode run alone: one counter advance, or a refusal. */
  lemma {:induction false} CheckAlone(cfg: Config, db: Db, p: Pid, u: UserId, goal: Goal, code: string, row: User,
                                      draw: Token, f: Faults)
    ensures Solo(cfg, db, p, BeginCheck(u, goal, code, row), draw, f) ==
      match AcceptedNow(cfg, db, u, row.secret, code, f)
      case None => (db, Refused)
      case Some(c) => Solo(cfg, Counted(cfg, db, p, u, row.secret, code, c), p, AfterCheck(u, goal), draw, f)
  {
    if DecryptSecret(row.secret).Some? {
      var secret := DecryptSecret(row.secret).value;
      var use := CodeUse(secret, code, StepOf(db.now));
      Goes(cfg, db, p, Check(u, goal, code, secret), draw, f);
      if VerdictOf(cfg.g, use).Some? { AcceptAlone(cfg, db, p, u, goal, use, VerdictOf(cfg.g, use).value, draw, f); }
    }
  }

  lemma {:induction false} AcceptAlone(cfg: Config, db: Db, p: Pid, u: UserId, goal: Goal, use: CodeUse, c: int,
                                       draw: Token, f: Faults)
    ensures Solo(cfg, db, p, Accept(u, goal, use, c), draw, f) ==
      if !f.accept && u in db.users && db.users[u].lastCounter < c then
        Solo(cfg, Exec(db, p, AdvanceCounter(u, use, c)).0, p, AfterCheck(u, goal), draw, f)
      else (db, Refused)
  {
    var h := Accept(u, goal, use, c);
    if f.accept { Falls(cfg, db, p, h, draw, f); } else { Goes(cfg, db, p, h, draw, f); }
  }

  /** What follows an accepted code. */
  function AfterCheck(u: UserId, goal: Goal): Handler {
    match goal
    case ToConfirm => Arm(u)
    case ToDisable => Disarm(u)
    case ToErase => Remove(u)
  }

  lemma {:induction false} ArmAlone(cfg: Config, db: Db, p: Pid, u: UserId, draw: Token, f: Faults)
    requires u in db.users && db.users[u].secret.Some?
    ensures SoloEffect(cfg, db, p, Arm(u), draw, f)
         == if db.users[u].enabled then Effect(db.users, db.sessions, Refused)
            else Effect(db.users[u := db.users[u].(enabled := true)], db.sessions, Done)
  {
    Goes(cfg, db, p, Arm(u), draw, f);
  }

  lemma {:induction false} DisarmAlone(cfg: Config, db: Db, p: Pid, u: UserId, draw: Token, f: Faults)
    requires u in db.users
    ensures SoloEffect(cfg, db, p, Disarm(u), draw, f)
         == Effect(db.users[u := db.users[u].(secret := None, enabled := false, lastCounter := 0)], db.sessions, Done)
  {
    Goes(cfg, db, p, Disarm(u), draw, f);
  }

  lemma {:induction false} ConfirmChecked(cfg: Config, db: Db, p: Pid, u: UserId, code: string, draw: Token, f: Faults)
    requires u in db.users
    ensures SoloEffect(cfg, db, p, BeginCheck(u, ToConfirm, code, db.users[u]), draw, f)
         == ConfirmEffect(cfg, db, u, code, db.users[u].password, f)
  {
    CheckAlone(cfg, db, p, u, ToConfirm, code, db.users[u], draw, f);
    var c := AcceptedNow(cfg, db, u, db.users[u].secret, code, f);
    if c.Some? { ArmCounted(cfg, db, p, u, code, c.value, draw, f); }
  }

  lemma {:induction false} ArmCounted(cfg: Config, db: Db, p: Pid, u: UserId, code: string, c: int, draw: Token,
                                      f: Faults)
    requires u in db.users && DecryptSecret(db.users[u].secret).Some? && db.users[u].lastCounter < c
    ensures SoloEffect(cfg, Counted(cfg, db, p, u, db.users[u].secret, code, c), p, Arm(u), draw, f)
         == if db.users[u].enabled then Effect(WithCounter(db, u, c), db.sessions, Refused)
            else Effect(db.users[u := db.users[u].(lastCounter := c, enabled := true)], db.sessions, Done)
  {
    ArmAlone(cfg, Counted(cfg, db, p, u, db.users[u].secret, code, c), p, u, draw, f);
  }

  lemma {:induction false} ConfirmAlone(cfg: Config, db: Db, p: Pid, u: UserId, code: string, password: string,
                                        draw: Token, f: Faults)
    ensures SoloEffect(cfg, db, p, Load(u, Confirm(code, password)), draw, f)
         == ConfirmEffect(cfg, db, u, code, password, f)
  {
    Goes(cfg, db, p, Load(u, Confirm(code, password)), draw, f);
    if u in db.users && db.users[u].password == password { ConfirmChecked(cfg, db, p, u, code, draw, f); }
  }

  lemma {:induction false} DisableChecked(cfg: Config, db: Db, p: Pid, u: UserId, code: string, draw: Token, f: Faults)
    requires u in db.users && db.users[u].enabled && db.users[u].secret.Some?
    ensures SoloEffect(cfg, db, p, BeginCheck(u, ToDisable, code, db.users[u]), draw, f)
         == DisableEffect(cfg, db, u, code, db.users[u].password, f)
  {
    CheckAlone(cfg, db, p, u, ToDisable, code, db.users[u], draw, f);
    var c := AcceptedNow(cfg, db, u, db.users[u].secret, code, f);
    if c.Some? { DisarmCounted(cfg, db, p, u, code, c.value, draw, f); }
  }

  lemma {:induction false} DisarmCounted(cfg: Config, db: Db, p: Pid, u: UserId, code: string, c: int, draw: Token,
                                         f: Faults)
    requires u in db.users && DecryptSecret(db.users[u].secret).Some? && db.users[u].lastCounter < c
    ensures SoloEffect(cfg, Counted(cfg, db, p, u, db.users[u].secret, code, c), p, Disarm(u), draw, f)
         == Effect(db.users[u := db.users[u].(secret := None, enabled := false, lastCounter := 0)], db.sessions, Done)
  {
    DisarmAlone(cfg, Counted(cfg, db, p, u, db.users[u].secret, code, c), p, u, draw, f);
  }

  lemma {:induction false} DisableAlone(cfg: Config, db: Db, p: Pid, u: UserId, code: string, password: string,
                                        draw: Token, f: Faults)
    ensures SoloEffect(cfg, db, p, Load(u, Disable(code, password)), draw, f)
         == DisableEffect(cfg, db, u, code, password, f)
  {
    Goes(cfg, db, p, Load(u, Disable(code, password)), draw, f);
    if u in db.users && db.users[u].password == password && db.users[u].enabled && db.users[u].secret.Some? {
      DisableChecked(cfg, db, p, u, code, draw, f);
    }
  }

  lemma {:induction false} EraseChecked(cfg: Config, db: Db, p: Pid, u: UserId, code: string, draw: Token, f: Faults)
    requires u in db.users && cfg.totpOn && db.users[u].enabled && db.users[u].secret.Some?
    ensures SoloEffect(cfg, db, p, BeginCheck(u, ToErase, code, db.users[u]), draw, f)
         == EraseEffect(cfg, db, u, code, db.users[u].password, f)
  {
    CheckAlone(cfg, db, p, u, ToErase, code, db.users[u], draw, f);
    var c := AcceptedNow(cfg, db, u, db.users[u].secret, code, f);
    if c.Some? { RemoveCounted(cfg, db, p, u, code, c.value, draw, f); }
  }

  lemma {:induction false} RemoveCounted(cfg: Config, db: Db, p: Pid, u: UserId, code: string, c: int, draw: Token,
                                         f: Faults)
    requires u in db.users && DecryptSecret(db.users[u].secret).Some? && db.users[u].lastCounter < c
    ensures SoloEffect(cfg, Counted(cfg, db, p, u, db.users[u].secret, code, c), p, Remove(u), draw, f)
         == Effect(db.users - {u}, Without(db.sessions, u), Done)
  {
    var db1 := Counted(cfg, db, p, u, db.users[u].secret, code, c);
    RemoveAlone(cfg, db1, p, u, draw, f);
    assert db1.users - {u} == db.users - {u};
  }

  lemma {:induction false} EraseAlone(cfg: Config, db: Db, p: Pid, u: UserId, code: string, password: string,
                                      draw: Token, f: Faults)
    ensures SoloEffect(cfg, db, p, Load(u, Erase(code, password)), draw, f)
         == EraseEffect(cfg, db, u, code, password, f)
  {
    Goes(cfg, db, p, Load(u, Erase(code, password)), draw, f);
    if u in db.users && db.users[u].password == password {
      if cfg.totpOn && db.users[u].enabled && db.users[u].secret.Some? { EraseChecked(cfg, db, p, u, code, draw, f); }
      else { RemoveAlone(cfg, db, p, u, draw, f); }
    }
  }

  lemma {:induction false} RemoveAlone(cfg: Config, db: Db, p: Pid, u: UserId, draw: Token, f: Faults)
    requires u in db.users
    ensures SoloEffect(cfg, db, p, Remove(u), draw, f) == Effect(db.users - {u}, Without(db.sessions, u), Done)
  {
    Goes(cfg, db, p, Remove(u), draw, f);
  }

  lemma {:induction false} ChangeEmailAlone(cfg: Config, db: Db, p: Pid, u: UserId, current: string, draw: Token,
                                            f: Faults)
    requires draw !in db.issued
    ensures SoloEffect(cfg, db, p, Load(u, ChangeEmail(current)), draw, f) == ChangeEmailEffect(db, u, current, draw, f)
  {
    Goes(cfg, db, p, Load(u, ChangeEmail(current)), draw, f);
    if u in db.users && db.users[u].password == current { ReissueAlone(cfg, db, p, u, draw, f); }
  }

  lemma {:induction false} LogOutAlone(cfg: Config, db: Db, p: Pid, u: UserId, cookie: Token, draw: Token, f: Faults)
    ensures SoloEffect(cfg, db, p, KillOne(cookie), draw, f)
         == Effect(db.users, if f.logout then db.sessions else db.sessions - {cookie}, Done)
    ensures SoloEffect(cfg, db, p, KillAll(u), draw, f) == Effect(db.users, Without(db.sessions, u), Done)
  {
    if f.logout { Falls(cfg, db, p, KillOne(cookie), draw, f); } else { Goes(cfg, db, p, KillOne(cookie), draw, f); }
    Goes(cfg, db, p, KillAll(u), draw, f);
  }

  /** What follows a session check that found its owner. */
  function Behind(u: UserId, cookie: Token, req: Request): Handler {
    match req
    case LogOut => KillOne(cookie)
    case LogOutAll => KillAll(u)
    case _ => Load(u, req)
  }

  lemma {:induction false} RequestAlone(cfg: Config, db: Db, p: Pid, u: UserId, cookie: Token, req: Request,
                                        draw: Token, f: Faults)
    requires draw !in db.issued
    ensures SoloEffect(cfg, db, p, Behind(u, cookie, req), draw, f) == RequestEffect(cfg, db, u, cookie, req, draw, f)
  {
    match req
    case LogOut => LogOutAlone(cfg, db, p, u, cookie, draw, f);
    case LogOutAll => LogOutAlone(cfg, db, p, u, cookie, draw, f);
    case ChangePassword(current, next) => ChangePasswordAlone(cfg, db, p, u, current, next, draw, f);
    case ChangeEmail(current) => ChangeEmailAlone(cfg, db, p, u, current, draw, f);
    case Enroll(secret, nonce) => EnrollAlone(cfg, db, p, u, secret, nonce, draw, f);
    case Confirm(code, password) => ConfirmAlone(cfg, db, p, u, code, password, draw, f);
    case Disable(code, password) => DisableAlone(cfg, db, p, u, code, password, draw, f);
    case Erase(code, password) => EraseAlone(cfg, db, p, u, code, password, draw, f);
  }

  lemma {:induction false} GateAlone(cfg: Config, db: Db, p: Pid, cookie: Token, req: Request, draw: Token, f: Faults)
    ensures SoloEffect(cfg, db, p, Gate(cookie, req), draw, f) ==
      if !(Live(db, cookie) && db.sessions[cookie].verified) then Effect(db.users, db.sessions, SessionExpired)
      else SoloEffect(cfg, db, p, Behind(db.sessions[cookie].user, cookie, req), draw, f)
  {
    Goes(cfg, db, p, Gate(cookie, req), draw, f);
  }

  /** Every call, run alone with whatever faults, does to the tables and answers
      what CallEffect says. */
  lemma {:induction false} CallAlone(cfg: Config, db: Db, p: Pid, call: Call, draw: Token, f: Faults)
    requires draw !in db.issued && draw !in db.sessions
    ensures SoloEffect(cfg, db, p, Entry(cfg, call), draw, f) == CallEffect(cfg, db, call, draw, f)
  {
    match call
    case Verify(cookie, code) => if cfg.totpOn { VerifyAlone(cfg, db, p, cookie, code, draw, f); }
    case Login(u, password) => LoginAlone(cfg, db, p, u, password, draw, f);
    case Authed(cookie, req) =>
      if !NotMounted(cfg, req) {
        GateAlone(cfg, db, p, cookie, req, draw, f);
        if Live(db, cookie) { RequestAlone(cfg, db, p, db.sessions[cookie].user, cookie, req, draw, f); }
      }
  }
}
