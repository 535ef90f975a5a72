/** Where verified sessions come from. */
module AuthProvenance {
  import opened Ids
  import opened AuthDb
  import opened AuthHandlers
  import opened AuthInvariant

  /** The statement p is about to run entitles it to a verified session of u: a
      login that finds u with this password and no second factor due, or a
      session check that finds a verified session of u. */
  predicate Entitles(cfg: Config, db: Db, h: Handler, u: UserId) {
    match h
    case LoginLoad(v, password) =>
      v == u && u in db.users && db.users[u].password == password && !(cfg.totpOn && db.users[u].enabled)
    case Gate(cookie, _) => Live(db, cookie) && db.sessions[cookie].verified && db.sessions[cookie].user == u
    case _ => false
  }

  /** The k-th action of the schedule was that statement. */
  ghost predicate EntitledAt(cfg: Config, init: State, schedule: seq<Action>, k: int, p: Pid, u: UserId) {
    0 <= k < |schedule| && schedule[k].Step? && schedule[k].pid == p
    && var r := Run(cfg, init, schedule[..k]); p in r.procs && Entitles(cfg, r.db, r.procs[p], u)
  }

  ghost predicate Entitled(cfg: Config, init: State, schedule: seq<Action>, p: Pid, u: UserId) {
    exists k :: EntitledAt(cfg, init, schedule, k, p, u)
  }

  /** The stages from which a verified session of u may still be stored. */
  predicate Acts(h: Handler, u: UserId) {
    match h
    case Load(v, _) => v == u
    case Overwrite(v, _) => v == u
    case KillAndReissue(v) => v == u
    case CreateName(v, kind) => v == u && IsVerified(kind)
    case CreatePurge(v, kind, _) => v == u && IsVerified(kind)
    case CreateStamp(v, kind, _) => v == u && IsVerified(kind)
    case CreateInsert(v, kind, _, _) => v == u && IsVerified(kind)
    case _ => false
  }

  /** A verified session's token was minted by a rotation of the request that
      drew it, or that request was entitled to a session of the same user. */
  ghost predicate Accounted(cfg: Config, init: State, schedule: seq<Action>, db: Db, t: Token) {
    t in db.birth && t in db.issued && db.birth[t].verified ==>
      HasRotated(db.log, db.issued[t], t) || Entitled(cfg, init, schedule, db.issued[t], db.birth[t].user)
  }

  ghost predicate ActorsEntitled(cfg: Config, init: State, schedule: seq<Action>) {
    var s := Run(cfg, init, schedule);
    forall p, u | p in s.procs && Acts(s.procs[p], u) :: Entitled(cfg, init, schedule, p, u)
  }

  ghost predicate AllAccounted(cfg: Config, init: State, schedule: seq<Action>) {
    forall t :: Accounted(cfg, init, schedule, Run(cfg, init, schedule).db, t)
  }

  lemma EntitledStays(cfg: Config, init: State, schedule: seq<Action>, a: Action, p: Pid, u: UserId)
    requires Entitled(cfg, init, schedule, p, u)
    ensures Entitled(cfg, init, schedule + [a], p, u)
  {
    var k :| EntitledAt(cfg, init, schedule, k, p, u);
    assert (schedule + [a])[..k] == schedule[..k] && (schedule + [a])[k] == schedule[k];
    assert EntitledAt(cfg, init, schedule + [a], k, p, u);
  }

  lemma EntitledNow(cfg: Config, init: State, schedule: seq<Action>, a: Action, p: Pid, u: UserId)
    requires a.Step? && a.pid == p
    requires var s := Run(cfg, init, schedule); p in s.procs && Entitles(cfg, s.db, s.procs[p], u)
    ensures Entitled(cfg, init, schedule + [a], p, u)
  {
    assert (schedule + [a])[..|schedule|] == schedule;
    assert EntitledAt(cfg, init, schedule + [a], |schedule|, p, u);
  }

  /** Which step leads into the stages of Acts. */
  lemma ActorsCameFrom(cfg: Config, s: State, a: Action, p: Pid, u: UserId)
    requires p in Apply(cfg, s, a).procs && Acts(Apply(cfg, s, a).procs[p], u)
    ensures p in s.procs
    ensures Acts(s.procs[p], u) || (a.Step? && a.pid == p && Entitles(cfg, s.db, s.procs[p], u))
  {
    if a.Step? && a.pid == p && p in s.procs && !s.procs[p].Finished? { OwnStageCameFrom(cfg, s, p, a.draw, u); }
  }

  lemma OwnStageCameFrom(cfg: Config, s: State, p: Pid, draw: Token, u: UserId)
    requires p in s.procs && !s.procs[p].Finished? && Acts(Advance(cfg, s, p, draw).procs[p], u)
    ensures Acts(s.procs[p], u) || Entitles(cfg, s.db, s.procs[p], u)
  {
    var h := s.procs[p];
    if h.LoginLoad? { LoginEntitles(cfg, s, p, draw, u); }
    else if h.Gate? { GateEntitles(cfg, s, p, draw, u); }
    else if InVerify(h) { VerifiesNeverAct(cfg, s, p, draw, u); }
    else { ActorsStay(cfg, s, p, draw, u); }
  }

  lemma VerifiesNeverAct(cfg: Config, s: State, p: Pid, draw: Token, u: UserId)
    requires p in s.procs && InVerify(s.procs[p])
    ensures p in Advance(cfg, s, p, draw).procs && !Acts(Advance(cfg, s, p, draw).procs[p], u)
  {
  }

  lemma ActorsStay(cfg: Config, s: State, p: Pid, draw: Token, u: UserId)
    requires p in s.procs && !s.procs[p].Finished? && !s.procs[p].LoginLoad? && !s.procs[p].Gate?
    requires !InVerify(s.procs[p])
    requires Acts(Advance(cfg, s, p, draw).procs[p], u)
    ensures Acts(s.procs[p], u)
  {
  }

  lemma LoginEntitles(cfg: Config, s: State, p: Pid, draw: Token, u: UserId)
    requires p in s.procs && s.procs[p].LoginLoad? && Acts(Advance(cfg, s, p, draw).procs[p], u)
    ensures Entitles(cfg, s.db, s.procs[p], u)
  {
  }

  lemma GateEntitles(cfg: Config, s: State, p: Pid, draw: Token, u: UserId)
    requires p in s.procs && s.procs[p].Gate? && Acts(Advance(cfg, s, p, draw).procs[p], u)
    ensures Entitles(cfg, s.db, s.procs[p], u)
  {
  }

  /** The action is a step of the request that drew t, which rotated a pending
      session into t or is entitled to the session it stores. */
  ghost predicate StoredBy(cfg: Config, s: State, a: Action, t: Token) {
    && a.Step? && a.pid in s.procs && !s.procs[a.pid].Finished?
    && t in s.db.issued && s.db.issued[t] == a.pid
    && var db' := Apply(cfg, s, a).db;
    t in db'.birth &&
    (HasRotated(db'.log, a.pid, t) || (db'.birth[t].verified ==> Acts(s.procs[a.pid], db'.birth[t].user)))
  }

  /** Which step stores a new token. */
  lemma BirthsCameFrom(cfg: Config, s: State, a: Action, t: Token)
    requires Inv(cfg.g, s)
    ensures t in Apply(cfg, s, a).db.birth && t !in s.db.birth ==> StoredBy(cfg, s, a, t)
  {
    if a.Step? && a.pid in s.procs && !s.procs[a.pid].Finished? {
      var h := s.procs[a.pid];
      assert ProcOk(cfg.g, s.db, a.pid, h);
      if t in Apply(cfg, s, a).db.birth && t !in s.db.birth { StatementBirths(s.db, a.pid, Next(h, a.draw), t); }
    }
  }

  lemma StatementBirths(db: Db, p: Pid, stmt: Stmt, t: Token)
    requires t in Exec(db, p, stmt).0.birth && t !in db.birth
    ensures var db' := Exec(db, p, stmt).0;
      || (stmt.InsertSession? && stmt.token == t && db'.birth[t].user == stmt.user
          && db'.birth[t].verified == stmt.verified)
      || (stmt.RotateSession? && stmt.minted == t && HasRotated(db'.log, p, t))
  {
    var db' := Exec(db, p, stmt).0;
    if stmt.RotateSession? { assert db'.log[|db.log|] == Rotated(p, stmt.spent, t, stmt.user, stmt.accepted); }
  }

  lemma AccountedNext(cfg: Config, init: State, before: seq<Action>, a: Action, t: Token)
    requires Fresh(init) && ActorsEntitled(cfg, init, before)
    requires Accounted(cfg, init, before, Run(cfg, init, before).db, t)
    ensures Accounted(cfg, init, before + [a], Apply(cfg, Run(cfg, init, before), a).db, t)
  {
    var s := Run(cfg, init, before);
    var s' := Apply(cfg, s, a);
    FreshOk(cfg.g, init);
    RunKeeps(cfg, init, before);
    ApplyGrows(cfg, s, a);
    if t in s'.db.birth && t in s'.db.issued && s'.db.birth[t].verified {
      if t in s.db.birth {
        OldTokenAccounted(cfg, init, before, a, t);
      } else {
        BirthsCameFrom(cfg, s, a, t);
        if !HasRotated(s'.db.log, a.pid, t) { EntitledStays(cfg, init, before, a, a.pid, s'.db.birth[t].user); }
      }
    }
  }

  lemma OldTokenAccounted(cfg: Config, init: State, before: seq<Action>, a: Action, t: Token)
    requires var s := Run(cfg, init, before);
      SessionsOk(s.db) && Grows(s.db, Apply(cfg, s, a).db) && t in s.db.birth && s.db.birth[t].verified
    requires Accounted(cfg, init, before, Run(cfg, init, before).db, t)
    ensures Accounted(cfg, init, before + [a], Apply(cfg, Run(cfg, init, before), a).db, t)
  {
    var s := Run(cfg, init, before);
    var s' := Apply(cfg, s, a);
    var p := s.db.issued[t];
    if HasRotated(s.db.log, p, t) {
      var i :| 0 <= i < |s.db.log| && s.db.log[i].Rotated? && s.db.log[i].pid == p && s.db.log[i].minted == t;
      assert s'.db.log[i] == s.db.log[i];
    } else {
      EntitledStays(cfg, init, before, a, p, s.db.birth[t].user);
    }
  }

  lemma {:induction false} AllEntitled(cfg: Config, init: State, schedule: seq<Action>)
    requires Fresh(init)
    ensures ActorsEntitled(cfg, init, schedule) && AllAccounted(cfg, init, schedule)
    decreases |schedule|
  {
    if schedule != [] {
      var before, a := schedule[..|schedule| - 1], schedule[|schedule| - 1];
      assert schedule == before + [a];
      AllEntitled(cfg, init, before);
      RunConcat(cfg, init, before, [a]);
      var s := Run(cfg, init, before);
      var s' := Apply(cfg, s, a);
      assert Run(cfg, s, [a]) == s';
      forall p, u | p in s'.procs && Acts(s'.procs[p], u) ensures Entitled(cfg, init, schedule, p, u) {
        ActorsCameFrom(cfg, s, a, p, u);
        if Acts(s.procs[p], u) { EntitledStays(cfg, init, before, a, p, u); }
        else { EntitledNow(cfg, init, before, a, p, u); }
      }
      forall t ensures Accounted(cfg, init, schedule, s'.db, t) {
        AccountedNext(cfg, init, before, a, t);
      }
    }
  }

  /** In every run a verified session was minted by a 2FA verify, or opened by
      a request that, when its own login statement ran, found the password right
      and no second factor due, or that had presented a verified session of the
      same user. So while a second factor is armed the password alone opens
      none; only a login that read the account before it was armed still may. */
  lemma VerifiedSessionsAreEarned(cfg: Config, init: State, schedule: seq<Action>, t: Token)
    requires Fresh(init)
    requires var s := Run(cfg, init, schedule); t in s.db.sessions && s.db.sessions[t].verified
    ensures var db := Run(cfg, init, schedule).db;
      && t in db.issued
      && (HasRotated(db.log, db.issued[t], t) || Entitled(cfg, init, schedule, db.issued[t], db.sessions[t].user))
  {
    var s := Run(cfg, init, schedule);
    FreshOk(cfg.g, init);
    RunKeeps(cfg, init, schedule);
    AllEntitled(cfg, init, schedule);
    assert Accounted(cfg, init, schedule, s.db, t);
  }

  // ---- pending sessions ------------------------------------------------------------------

  /** The statement p is about to run is a login that finds u with this password and
      a second factor due. */
  predicate OwesCode(cfg: Config, db: Db, h: Handler, u: UserId) {
    && h.LoginLoad? && h.user == u && u in db.users && db.users[u].password == h.password
    && cfg.totpOn && db.users[u].enabled
  }

  ghost predicate OwedAt(cfg: Config, init: State, schedule: seq<Action>, k: int, p: Pid, u: UserId) {
    0 <= k < |schedule| && schedule[k].Step? && schedule[k].pid == p
    && var r := Run(cfg, init, schedule[..k]); p in r.procs && OwesCode(cfg, r.db, r.procs[p], u)
  }

  ghost predicate Owed(cfg: Config, init: State, schedule: seq<Action>, p: Pid, u: UserId) {
    exists k :: OwedAt(cfg, init, schedule, k, p, u)
  }

  /** The stages from which a pending session of u may still be stored. */
  predicate StoresPending(h: Handler, u: UserId) {
    match h
    case CreateName(v, kind) => v == u && !IsVerified(kind)
    case CreatePurge(v, kind, _) => v == u && !IsVerified(kind)
    case CreateStamp(v, kind, _) => v == u && !IsVerified(kind)
    case CreateInsert(v, kind, _, _) => v == u && !IsVerified(kind)
    case _ => false
  }

  ghost predicate AllOwed(cfg: Config, init: State, schedule: seq<Action>) {
    var s := Run(cfg, init, schedule);
    && (forall p, u | p in s.procs && StoresPending(s.procs[p], u) :: Owed(cfg, init, schedule, p, u))
    && (forall t | t in s.db.birth && t in s.db.issued && !s.db.birth[t].verified ::
          Owed(cfg, init, schedule, s.db.issued[t], s.db.birth[t].user))
  }

  lemma OwedStays(cfg: Config, init: State, schedule: seq<Action>, a: Action, p: Pid, u: UserId)
    requires Owed(cfg, init, schedule, p, u)
    ensures Owed(cfg, init, schedule + [a], p, u)
  {
    var k :| OwedAt(cfg, init, schedule, k, p, u);
    assert (schedule + [a])[..k] == schedule[..k] && (schedule + [a])[k] == schedule[k];
    assert OwedAt(cfg, init, schedule + [a], k, p, u);
  }

  /** Which step leads into those stages. */
  lemma PendingCameFrom(cfg: Config, s: State, a: Action, p: Pid, u: UserId)
    requires p in Apply(cfg, s, a).procs && StoresPending(Apply(cfg, s, a).procs[p], u)
    ensures p in s.procs
    ensures StoresPending(s.procs[p], u) || (a.Step? && a.pid == p && OwesCode(cfg, s.db, s.procs[p], u))
  {
  }

  /** Which step stores a new pending token. */
  lemma PendingBirths(cfg: Config, s: State, a: Action, t: Token)
    requires Inv(cfg.g, s) && t in Apply(cfg, s, a).db.birth && t !in s.db.birth
    requires !Apply(cfg, s, a).db.birth[t].verified
    ensures a.Step? && a.pid in s.procs && t in s.db.issued && s.db.issued[t] == a.pid
    ensures StoresPending(s.procs[a.pid], Apply(cfg, s, a).db.birth[t].user)
  {
    var h := s.procs[a.pid];
    assert ProcOk(cfg.g, s.db, a.pid, h);
    StatementBirths(s.db, a.pid, Next(h, a.draw), t);
  }

  lemma OwedNext(cfg: Config, init: State, before: seq<Action>, a: Action)
    requires Inv(cfg.g, Run(cfg, init, before)) && AllOwed(cfg, init, before)
    ensures AllOwed(cfg, init, before + [a])
  {
    var s := Run(cfg, init, before);
    RunConcat(cfg, init, before, [a]);
    var s' := Apply(cfg, s, a);
    assert Run(cfg, s, [a]) == s';
    var schedule := before + [a];
    assert schedule[..|before|] == before && schedule[|before|] == a;
    forall p, u | p in s'.procs && StoresPending(s'.procs[p], u) ensures Owed(cfg, init, schedule, p, u) {
      PendingCameFrom(cfg, s, a, p, u);
      if StoresPending(s.procs[p], u) { OwedStays(cfg, init, before, a, p, u); }
      else { assert OwedAt(cfg, init, schedule, |before|, p, u); }
    }
    forall t | t in s'.db.birth && t in s'.db.issued && !s'.db.birth[t].verified
      ensures Owed(cfg, init, schedule, s'.db.issued[t], s'.db.birth[t].user)
    {
      ApplyGrows(cfg, s, a);
      if t !in s.db.birth { PendingBirths(cfg, s, a, t); }
      OwedStays(cfg, init, before, a, s'.db.issued[t], s'.db.birth[t].user);
    }
  }

  lemma {:induction false} EverythingOwed(cfg: Config, init: State, schedule: seq<Action>)
    requires Fresh(init)
    ensures AllOwed(cfg, init, schedule)
    decreases |schedule|
  {
    if schedule != [] {
      var before, a := schedule[..|schedule| - 1], schedule[|schedule| - 1];
      assert schedule == before + [a];
      EverythingOwed(cfg, init, before);
      FreshOk(cfg.g, init);
      RunKeeps(cfg, init, before);
      OwedNext(cfg, init, before, a);
    }
  }

  /** In every run a pending session was stored by a request whose own login
      statement found the password right and a second factor due. */
  lemma PendingSessionsAreOwed(cfg: Config, init: State, schedule: seq<Action>, t: Token)
    requires Fresh(init)
    requires var s := Run(cfg, init, schedule); t in s.db.sessions && !s.db.sessions[t].verified
    ensures var db := Run(cfg, init, schedule).db;
      t in db.issued && Owed(cfg, init, schedule, db.issued[t], db.sessions[t].user)
  {
    FreshOk(cfg.g, init);
    RunKeeps(cfg, init, schedule);
    EverythingOwed(cfg, init, schedule);
  }
}
