/** internal/auth in its own imperative form: DBSessionStore's methods update
    the session table in place, and the handlers call them one after another.
    Each leaves the tables as the effect that AuthSolo proves of the same
    request's step program run alone. `f` says which statements fail. */
module AuthServer {
  import opened Outcomes
  import opened Totp
  import opened Ids
  import opened AuthDb
  import opened AuthHandlers
  import opened AuthSolo
  import opened AuthGuarantees
  import opened AuthMeaning

  class Server {
    const cfg: Config
    var now: Time
    var users: map<UserId, User>
    var sessions: map<Token, Session>

    /** The tables, without history. */
    ghost function Snapshot(): Db
      reads this
    {
      Db(now, users, sessions, map[], map[], [])
    }

    /** The tables and the answer r. */
    ghost function Outcome(r: Response): Effect
      reads this
    {
      Effect(users, sessions, r)
    }

    ghost predicate Did(r: Response, effect: Effect)
      reads this
    {
      users == effect.users && sessions == effect.sessions && r == effect.response
    }

    /** The guard's counter is one for which this code belongs to the stored secret now. */
    ghost predicate ProvedBy(user: User, code: string)
      reads this
    {
      var secret := DecryptSecret(user.secret);
      secret.Some? && Candidate(cfg.g, secret.value, code, StepOf(now), user.lastCounter)
    }

    /** Every account but u's is as it was, and so are the sessions of every
        other user, except that expired ones may be gone. */
    twostate predicate OnlyTouches(u: UserId)
      reads this
    {
      forall v | v != u :: Untouched(old(Snapshot()), Snapshot(), v)
    }

    constructor (cfg: Config, now: Time)
      ensures this.cfg == cfg && this.now == now
      ensures users == map[] && sessions == map[]
    {
      this.cfg := cfg;
      this.now := now;
      users := map[];
      sessions := map[];
    }

    // ---- session.go --------------------------------------------------------------------

    /** Create, with `draw` from the token generator: purge expired rows, insert the new one. */
    method Create(u: UserId, verified: bool, draw: Token, f: Faults) returns (r: Response)
      modifies this`sessions
      ensures Did(r, CreateEffect(old(Snapshot()), u, if verified then FullLogin else HalfLogin, draw, f))
    {
      if f.draw {
        return ServerError;
      }
      if !f.purge {  // best effort
        sessions := map t | t in sessions && !(sessions[t].expires < now) :: sessions[t];
      }
      var expires := now + SessionTtl(verified);
      if f.insert || u !in users || draw in sessions {
        return ServerError;
      }
      sessions := sessions[draw := Session(u, verified, 0, expires)];
      return LoggedIn(draw, verified);
    }

    method Validate(cookie: Token) returns (r: Option<UserId>)
      ensures r.Some? <==> cookie in sessions && now < sessions[cookie].expires && sessions[cookie].verified
      ensures r.Some? ==> r.value == sessions[cookie].user
    {
      if cookie !in sessions || sessions[cookie].expires <= now {
        return None;
      }
      if !sessions[cookie].verified {
        return None;
      }
      return Some(sessions[cookie].user);
    }

    method ValidatePending(cookie: Token) returns (r: Option<UserId>)
      ensures r.Some? <==> cookie in sessions && now < sessions[cookie].expires && !sessions[cookie].verified
      ensures r.Some? ==> r.value == sessions[cookie].user
    {
      if cookie in sessions && sessions[cookie].expires > now && !sessions[cookie].verified {
        return Some(sessions[cookie].user);
      }
      return None;
    }

    method Invalidate(cookie: Token)
      modifies this`sessions
      ensures sessions == old(sessions) - {cookie}
    {
      sessions := sessions - {cookie};
    }

    method InvalidateAll(u: UserId)
      modifies this`sessions
      ensures sessions == Without(old(sessions), u)
      ensures forall t | t in sessions :: sessions[t].user != u
    {
      sessions := map t | t in sessions && sessions[t].user != u :: sessions[t];
    }

    /** RotatePending, with `draw` from the token generator: one statement
        deletes the pending row and inserts the verified one, or does nothing. */
    method RotatePending(cookie: Token, u: UserId, draw: Token) returns (r: Response)
      requires draw !in sessions
      modifies this`sessions
      ensures r == SessionExpired <==>
          cookie !in old(sessions) || old(sessions)[cookie].expires <= now || old(sessions)[cookie].verified
      ensures r != SessionExpired ==> r == if u !in users then ServerError else Verified(draw)
      ensures sessions == (if r.Verified? then (old(sessions) - {cookie})[draw := Session(u, true, 0, now + 43200)]
                           else old(sessions))
    {
      if !(cookie in sessions && sessions[cookie].expires > now && !sessions[cookie].verified) {
        return SessionExpired;
      }
      if u !in users {  // foreign key
        return ServerError;
      }
      sessions := sessions - {cookie};
      sessions := sessions[draw := Session(u, true, 0, now + SESSION_MAX_AGE)];
      return Verified(draw);
    }

    method RecordTOTPFailure(cookie: Token) returns (r: Option<nat>)
      modifies this`sessions
      ensures r.Some? <==>
          cookie in old(sessions) && now < old(sessions)[cookie].expires && !old(sessions)[cookie].verified
      ensures r.None? ==> sessions == old(sessions)
      ensures r.Some? ==> r.value == old(sessions)[cookie].attempts + 1
      ensures r.Some? ==> sessions == old(sessions)[cookie := old(sessions)[cookie].(attempts := r.value)]
    {
      if cookie in sessions && sessions[cookie].expires > now && !sessions[cookie].verified {
        var n := sessions[cookie].attempts + 1;
        sessions := sessions[cookie := sessions[cookie].(attempts := n)];
        return Some(n);
      }
      return None;
    }

    // ---- database.go -------------------------------------------------------------------

    method GetUserByID(u: UserId) returns (r: Option<User>)
      ensures r.Some? <==> u in users
      ensures r.Some? ==> r.value == users[u]
    {
      if u in users {
        return Some(users[u]);
      }
      return None;
    }

    /** AcceptTOTPCounter: compare and advance in one statement. */
    method AcceptTOTPCounter(u: UserId, counter: int) returns (accepted: bool)
      modifies this`users
      ensures accepted <==> u in old(users) && old(users)[u].lastCounter < counter
      ensures users == (if accepted then old(users)[u := old(users)[u].(lastCounter := counter)] else old(users))
    {
      if u in users && users[u].lastCounter < counter {
        users := users[u := users[u].(lastCounter := counter)];
        return true;
      }
      return false;
    }

    // ---- twofactor.go ------------------------------------------------------------------

    /** handleVerify2FA, for a pending session its middleware has just admitted. */
    method HandleVerify2FA(u: UserId, cookie: Token, code: string, draw: Token, f: Faults) returns (r: Response)
      requires draw !in sessions && LivePending(Snapshot(), cookie) && sessions[cookie].user == u
      modifies this`users, this`sessions
      ensures Did(r, VerifyEffect(cfg, old(Snapshot()), cookie, code, draw, f))
      ensures now >= 0 ==> VerifyDoes(cfg, old(Snapshot()), cookie, code, draw, f, Outcome(r))
    {
      if now >= 0 { VerifyMeans(cfg, Snapshot(), cookie, code, draw, f); }
      var row := GetUserByID(u);
      if row.None? {
        r := RecordVerifyFailure(cookie, f);
        return;
      }
      var secret := DecryptSecret(row.value.secret);
      if secret.None? {
        r := RecordVerifyFailure(cookie, f);
        return;
      }
      var counter := VerifyCode(cfg.g, secret.value, code, now);
      if counter.None? {
        r := RecordVerifyFailure(cookie, f);
        return;
      }
      var accepted := AcceptTOTPCounter(u, counter.value);
      if !accepted {
        r := RecordVerifyFailure(cookie, f);
        return;
      }
      r := RotatePending(cookie, u, draw);
    }

    /** recordVerifyFailure: count the failure, lock the session at the limit; a
        lockout DELETE that fails is only logged, and the session lives on. */
    method RecordVerifyFailure(cookie: Token, f: Faults) returns (r: Response)
      modifies this`sessions
      ensures Did(r, FailEffect(old(Snapshot()), cookie, f))
      ensures LivePending(old(Snapshot()), cookie) ==> FailureDoes(old(Snapshot()), cookie, f, Outcome(r))
    {
      var attempts := RecordTOTPFailure(cookie);
      if attempts.None? {
        return SessionExpired;
      }
      if attempts.value >= MAX_TOTP_ATTEMPTS {
        if f.lock {
          return LockFailed(cookie);
        }
        Invalidate(cookie);
        return TooManyAttempts;
      }
      return InvalidCode(attempts.value);
    }

    /** acceptTOTPCode, shared by confirm, disable and account deletion. */
    method AcceptTOTPCode(u: UserId, stored: Option<Sealed>, code: string, f: Faults) returns (ok: bool)
      modifies this`users
      ensures var c := AcceptableCounter(cfg, old(Snapshot()), u, stored, code);
        && (ok <==> c.Some? && !f.accept)
        && users == (if ok then old(users)[u := old(users)[u].(lastCounter := c.value)] else old(users))
    {
      if stored.None? {
        return false;
      }
      var secret := DecryptSecret(stored);
      if secret.None? {
        return false;
      }
      var counter := VerifyCode(cfg.g, secret.value, code, now);
      if counter.None? {
        return false;
      }
      if f.accept {
        return false;
      }
      ok := AcceptTOTPCounter(u, counter.value);
    }

    method HandleEnroll2FA(u: UserId, secret: string, nonce: nat) returns (r: Response)
      modifies this`users
      ensures Did(r, EnrollEffect(old(Snapshot()), u, secret, nonce))
      ensures OnlyTouches(u)
      ensures EnrollDoes(old(Snapshot()), u, secret, nonce, Outcome(r))
    {
      var row := GetUserByID(u);
      if row.None? {
        return ServerError;
      }
      var sealed := Intact(secret, nonce);
      if u in users && !users[u].enabled {
        users := users[u := users[u].(secret := Some(sealed), enabled := false, lastCounter := 0)];
        return Done;
      }
      return Refused;
    }

    method HandleConfirm2FA(u: UserId, code: string, password: string, f: Faults) returns (r: Response)
      modifies this`users
      ensures Did(r, ConfirmEffect(cfg, old(Snapshot()), u, code, password, f))
      ensures OnlyTouches(u)
      ensures r == Done ==> u in users && users[u].enabled && ProvedBy(users[u], code)
      ensures now >= 0 ==> ConfirmDoes(cfg, old(Snapshot()), u, code, password, f, Outcome(r))
    {
      if now >= 0 { ConfirmMeans(cfg, Snapshot(), u, code, password, f); }
      var row := GetUserByID(u);
      if row.None? {
        return ServerError;
      }
      if row.value.password != password {
        return Refused;
      }
      var ok := AcceptTOTPCode(u, row.value.secret, code, f);
      if !ok {
        return Refused;
      }
      if u in users && users[u].secret.Some? && !users[u].enabled {
        users := users[u := users[u].(enabled := true)];
        return Done;
      }
      return Refused;
    }

    method HandleDisable2FA(u: UserId, code: string, password: string, f: Faults) returns (r: Response)
      modifies this`users
      ensures Did(r, DisableEffect(cfg, old(Snapshot()), u, code, password, f))
      ensures OnlyTouches(u)
      ensures now >= 0 ==> DisableDoes(cfg, old(Snapshot()), u, code, password, f, Outcome(r))
    {
      if now >= 0 { DisableMeans(cfg, Snapshot(), u, code, password, f); }
      var row := GetUserByID(u);
      if row.None? {
        return ServerError;
      }
      if row.value.password != password {
        return Refused;
      }
      if !row.value.enabled || row.value.secret.None? {
        return Refused;
      }
      var ok := AcceptTOTPCode(u, row.value.secret, code, f);
      if !ok {
        return Refused;
      }
      if u in users {
        users := users[u := users[u].(secret := None, enabled := false, lastCounter := 0)];
      }
      return Done;
    }

    // ---- handler.go --------------------------------------------------------------------

    method HandleLogin(u: UserId, password: string, draw: Token, f: Faults) returns (r: Response)
      modifies this`sessions
      ensures Did(r, LoginEffect(cfg, old(Snapshot()), u, password, draw, f))
      ensures draw !in old(sessions) ==> OnlyTouches(u)
      ensures draw !in old(sessions) ==> LoginDoes(cfg, old(Snapshot()), u, password, draw, f, Outcome(r))
    {
      var row := GetUserByID(u);
      if row.None? || row.value.password != password {
        return Refused;
      }
      var requires2FA := cfg.totpOn && row.value.enabled;
      r := Create(u, !requires2FA, draw, f);
    }

    /** killAndReissue: every session of the user dies, the requester gets a new
        one; if the wipe fails it stops there, and the answer carries a warning. */
    method KillAndReissueSessions(u: UserId, draw: Token, f: Faults) returns (r: Response)
      modifies this`sessions
      ensures Did(r, ReissueEffect(old(Snapshot()), u, draw, f))
      ensures draw !in old(sessions) ==> OnlyTouches(u)
      ensures u in users && draw !in old(sessions) ==> ReissueDoes(old(Snapshot()), u, draw, f, Outcome(r))
    {
      if u in users && draw !in sessions { ReissueMeans(Snapshot(), u, draw, f); }
      if f.wipe {
        return Uncontained;
      }
      InvalidateAll(u);
      r := Create(u, true, draw, f);
      if r == ServerError {
        r := Done;  // containment holds; the requester logs in again
      }
      if draw !in old(sessions) { ReissueIsLocal(old(Snapshot()), Snapshot(), u, draw, f); }
    }

    method HandleChangePassword(u: UserId, current: string, next: string, draw: Token, f: Faults) returns (r: Response)
      modifies this`users, this`sessions
      ensures Did(r, ChangePasswordEffect(old(Snapshot()), u, current, next, draw, f))
      ensures draw !in old(sessions) ==> OnlyTouches(u)
      ensures draw !in old(sessions) ==> ChangePasswordDoes(old(Snapshot()), u, current, next, draw, f, Outcome(r))
    {
      if draw !in sessions { ChangePasswordMeans(Snapshot(), u, current, next, draw, f); }
      var row := GetUserByID(u);
      if row.None? {
        return ServerError;
      }
      if row.value.password != current {
        return Refused;
      }
      users := users[u := users[u].(password := next)];
      r := KillAndReissueSessions(u, draw, f);
    }

    method HandleDeleteAccount(u: UserId, code: string, password: string, f: Faults) returns (r: Response)
      modifies this`users, this`sessions
      ensures Did(r, EraseEffect(cfg, old(Snapshot()), u, code, password, f))
      ensures OnlyTouches(u)
      ensures now >= 0 ==> EraseDoes(cfg, old(Snapshot()), u, code, password, f, Outcome(r))
    {
      if now >= 0 { EraseMeans(cfg, Snapshot(), u, code, password, f); }
      var row := GetUserByID(u);
      if row.None? {
        return ServerError;
      }
      if row.value.password != password {
        return Refused;
      }
      if cfg.totpOn && row.value.enabled && row.value.secret.Some? {
        var ok := AcceptTOTPCode(u, row.value.secret, code, f);
        if !ok {
          return Refused;
        }
      }
      users := users - {u};
      InvalidateAll(u);  // ON DELETE CASCADE
      assert Did(Done, EraseEffect(cfg, old(Snapshot()), u, code, password, f));
      EraseIsLocal(cfg, old(Snapshot()), Snapshot(), u, code, password, f);
      return Done;
    }

    /** The session part of handleUpdateProfile, when the e-mail changes. */
    method HandleChangeEmail(u: UserId, current: string, draw: Token, f: Faults) returns (r: Response)
      modifies this`sessions
      ensures Did(r, ChangeEmailEffect(old(Snapshot()), u, current, draw, f))
      ensures draw !in old(sessions) ==> OnlyTouches(u)
      ensures draw !in old(sessions) ==> ChangeEmailDoes(old(Snapshot()), u, current, draw, f, Outcome(r))
    {
      if draw !in sessions { ChangeEmailMeans(Snapshot(), u, current, draw, f); }
      var row := GetUserByID(u);
      if row.None? {
        return ServerError;
      }
      if row.value.password != current {
        return Refused;
      }
      r := KillAndReissueSessions(u, draw, f);
    }

    // ---- the routes --------------------------------------------------------------------

    /** POST /v1/auth/2fa/verify: pendingSessionRequired and the handler behind it. */
    method ServeVerify(cookie: Token, code: string, draw: Token, f: Faults) returns (r: Response)
      requires draw !in sessions
      modifies this`users, this`sessions
      ensures Did(r, VerifyEffect(cfg, old(Snapshot()), cookie, code, draw, f))
      ensures forall v | !OwnedBy(old(Snapshot()), cookie, v) :: Untouched(old(Snapshot()), Snapshot(), v)
    {
      var owner := ValidatePending(cookie);
      if owner.None? {
        return SessionExpired;
      }
      r := HandleVerify2FA(owner.value, cookie, code, draw, f);
      forall v | !OwnedBy(old(Snapshot()), cookie, v) ensures Untouched(old(Snapshot()), Snapshot(), v) {
        VerifyIsLocal(cfg, old(Snapshot()), Snapshot(), cookie, code, draw, f, v);
      }
    }

    /** sessionRequired and the handlers behind it. */
    method ServeAuthed(cookie: Token, req: Request, draw: Token, f: Faults) returns (r: Response)
      requires draw !in sessions && !NotMounted(cfg, req)
      modifies this`users, this`sessions
      ensures Did(r, CallEffect(cfg, old(Snapshot()), Authed(cookie, req), draw, f))
    {
      var owner := Validate(cookie);
      if owner.None? {
        return SessionExpired;
      }
      var u := owner.value;
      match req {
        case LogOut =>
          if !f.logout { Invalidate(cookie); }
          r := Done;
        case LogOutAll =>
          InvalidateAll(u);
          r := Done;
        case ChangePassword(current, next) => r := HandleChangePassword(u, current, next, draw, f);
        case ChangeEmail(current) => r := HandleChangeEmail(u, current, draw, f);
        case Enroll(secret, nonce) => r := HandleEnroll2FA(u, secret, nonce);
        case Confirm(code, password) => r := HandleConfirm2FA(u, code, password, f);
        case Disable(code, password) => r := HandleDisable2FA(u, code, password, f);
        case Erase(code, password) => r := HandleDeleteAccount(u, code, password, f);
      }
    }

    /** Any call, with a token the generator has not returned before. */
    method Serve(call: Call, draw: Token, f: Faults) returns (r: Response)
      requires draw !in sessions
      modifies this`users, this`sessions
      ensures Did(r, CallEffect(cfg, old(Snapshot()), call, draw, f))
      ensures now >= 0 ==> CallDoes(cfg, old(Snapshot()), call, draw, f, Outcome(r))
    {
      if now >= 0 { CallMeans(cfg, Snapshot(), call, draw, f); }
      match call {
        case Verify(cookie, code) =>
          if cfg.totpOn { r := ServeVerify(cookie, code, draw, f); } else { r := Refused; }
        case Login(u, password) => r := HandleLogin(u, password, draw, f);
        case Authed(cookie, req) =>
          if NotMounted(cfg, req) { r := Refused; } else { r := ServeAuthed(cookie, req, draw, f); }
      }
    }
  }

  lemma ReissueIsLocal(db: Db, db': Db, u: UserId, draw: Token, f: Faults)
    requires draw !in db.sessions && db'.now == db.now && db'.users == db.users
    requires db'.sessions == ReissueEffect(db, u, draw, f).sessions
    ensures forall v | v != u :: Untouched(db, db', v)
  {
  }

  lemma EraseIsLocal(cfg: Config, db: Db, db': Db, u: UserId, code: string, password: string, f: Faults)
    requires var e := EraseEffect(cfg, db, u, code, password, f);
      db'.users == e.users && db'.sessions == e.sessions
    ensures forall v | v != u :: Untouched(db, db', v)
  {
  }

  lemma VerifyIsLocal(cfg: Config, db: Db, db': Db, cookie: Token, code: string, draw: Token, f: Faults, v: UserId)
    requires draw !in db.sessions && !OwnedBy(db, cookie, v) && db'.now == db.now
    requires var e := VerifyEffect(cfg, db, cookie, code, draw, f); db'.users == e.users && db'.sessions == e.sessions
    ensures Untouched(db, db', v)
  {
  }

  /** The tables without their history, as a server sees them. */
  function Tables(db: Db): Db {
    Db(db.now, db.users, db.sessions, map[], map[], [])
  }

  lemma CreateWithoutHistory(cfg: Config, db: Db, u: UserId, kind: Kind, draw: Token, f: Faults)
    ensures CreateEffect(Tables(db), u, kind, draw, f) == CreateEffect(db, u, kind, draw, f)
    ensures ReissueEffect(Tables(db), u, draw, f) == ReissueEffect(db, u, draw, f)
  {
    assert Purged(Tables(db)) == Purged(db);
    var wiped := db.(sessions := Without(db.sessions, u));
    assert Tables(db).(sessions := Without(db.sessions, u)) == Tables(wiped);
    assert Purged(Tables(wiped)) == Purged(wiped);
  }

  lemma VerifyWithoutHistory(cfg: Config, db: Db, cookie: Token, code: string, draw: Token, f: Faults)
    ensures VerifyEffect(cfg, Tables(db), cookie, code, draw, f) == VerifyEffect(cfg, db, cookie, code, draw, f)
  {
    assert FailEffect(Tables(db), cookie, f) == FailEffect(db, cookie, f);
  }

  lemma PasswordWithoutHistory(cfg: Config, db: Db, u: UserId, current: string, next: string, draw: Token, f: Faults)
    ensures ChangePasswordEffect(Tables(db), u, current, next, draw, f)
         == ChangePasswordEffect(db, u, current, next, draw, f)
  {
    if u in db.users {
      var changed := db.(users := db.users[u := db.users[u].(password := next)]);
      assert Tables(db).(users := changed.users) == Tables(changed);
      CreateWithoutHistory(cfg, changed, u, Reissue, draw, f);
    }
  }

  lemma RequestWithoutHistory(cfg: Config, db: Db, u: UserId, cookie: Token, req: Request, draw: Token, f: Faults)
    ensures RequestEffect(cfg, Tables(db), u, cookie, req, draw, f) == RequestEffect(cfg, db, u, cookie, req, draw, f)
  {
    match req
    case ChangePassword(current, next) => PasswordWithoutHistory(cfg, db, u, current, next, draw, f);
    case ChangeEmail(_) => CreateWithoutHistory(cfg, db, u, Reissue, draw, f);
    case _ =>
  }

  lemma CallWithoutHistory(cfg: Config, db: Db, call: Call, draw: Token, f: Faults)
    ensures CallEffect(cfg, Tables(db), call, draw, f) == CallEffect(cfg, db, call, draw, f)
  {
    match call
    case Verify(cookie, code) => VerifyWithoutHistory(cfg, db, cookie, code, draw, f);
    case Login(u, _) =>
      if u in db.users { CreateWithoutHistory(cfg, db, u, LoginKind(cfg, db.users[u]), draw, f); }
    case Authed(cookie, req) =>
      if Live(db, cookie) { RequestWithoutHistory(cfg, db, db.sessions[cookie].user, cookie, req, draw, f); }
  }

  /** The class and the machine agree: what Serve does for a call, the machine
      does with it when it runs alone, with the same faults, from the same tables. */
  lemma ServerIsMachine(cfg: Config, s: State, p: Pid, call: Call, draw: Token, f: Faults)
    requires p in s.procs && s.procs[p] == Entry(cfg, call) && draw !in s.db.issued && draw !in s.db.sessions
    ensures var s' := Run(cfg, s, Moves(cfg, s, p, draw, f, 8));
      var effect := CallEffect(cfg, Tables(s.db), call, draw, f);
      && s'.procs == s.procs[p := Finished(effect.response)]
      && s'.db.users == effect.users && s'.db.sessions == effect.sessions
      && (s.db.now >= 0 ==> CallDoes(cfg, s.db, call, draw, f, effect))
  {
    if s.db.now >= 0 { CallMeans(cfg, s.db, call, draw, f); }
    var (db', response) := Solo(cfg, s.db, p, Entry(cfg, call), draw, f);
    assert SoloEffect(cfg, s.db, p, Entry(cfg, call), draw, f) == Effect(db'.users, db'.sessions, response);
    assert Remaining(Entry(cfg, call)) <= 8;
    SoloIsASchedule(cfg, s, p, draw, f, 8);
    CallAlone(cfg, s.db, p, call, draw, f);
    CallWithoutHistory(cfg, s.db, call, draw, f);
  }
}
