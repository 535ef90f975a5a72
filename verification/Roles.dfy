/** internal/types/roles.go, and internal/admin/role.go and member.go as step
    programs: the locked role-change transaction, the lock-free verification,
    and the admin profile edit with its row lock. */
module Roles {
  import opened Outcomes
  import opened Ids

  datatype Role = New | User | Admin | Superuser

  function RoleLevel(r: Role): int {
    match r
    case New => 0
    case User => 1
    case Admin => 2
    case Superuser => 3
  }

  /** roleVisibleToViewer */
  predicate VisibleTo(viewerLevel: int, r: Role) {
    viewerLevel >= RoleLevel(Superuser) || r == New || r == User
  }

  datatype Event =
    // A setRole transaction committed: the role it read, the role it overwrote,
    // and the session rows its DELETE found (None: it ran no DELETE).
    | RoleSet(pid: Pid, target: UserId, read: Role, overwritten: Role, to: Role, revoked: Option<set<Token>>)
    | Edited(pid: Pid, viewerLevel: int, target: UserId)

  /** Committed rows; the advisory lock; the row locks of open transactions;
      every token that ever named a session; history. */
  datatype Db = Db(
    roles: map<UserId, Role>,
    sessions: map<Token, UserId>,
    lock: Option<Pid>,
    rowLocks: map<UserId, Pid>,
    ever: set<Token>,
    log: seq<Event>)

  datatype Response =
    | RoleChanged(read: Role, demoted: bool)
    | Verified | Updated | NotFound | LastSuperuser | NotPending | RolledBack

  datatype Handler =
    // setRole
    | SetLock(target: UserId, to: Role)
    | SetRead(target: UserId, to: Role)
    | SetCount(target: UserId, to: Role, read: Role)
    | SetUpdate(target: UserId, to: Role, read: Role)
    | SetDelete(target: UserId, to: Role, read: Role)
    | SetCommit(target: UserId, to: Role, read: Role, revoked: Option<set<Token>>)
    // verifyMember
    | VerifyFetch(viewerLevel: int, target: UserId)
    | VerifyUpdate(viewerLevel: int, target: UserId)
    | VerifyRecheck(viewerLevel: int, target: UserId)
    // updateMemberForViewer
    | EditLock(viewerLevel: int, target: UserId)
    | EditWrite(viewerLevel: int, target: UserId)
    | EditCommit(viewerLevel: int, target: UserId)
    | Finished(response: Response)

  datatype State = State(db: Db, procs: map<Pid, Handler>)

  function SuperusersIn(roles: map<UserId, Role>): set<UserId> {
    set u | u in roles && roles[u] == Superuser
  }

  function Superusers(db: Db): set<UserId> {
    SuperusersIn(db.roles)
  }

  function SessionsOf(db: Db, u: UserId): set<Token> {
    set t | t in db.sessions && db.sessions[t] == u
  }

  predicate RowFree(db: Db, p: Pid, u: UserId) {
    u in db.rowLocks ==> db.rowLocks[u] == p
  }

  /** End of p's transaction: all its locks are released. */
  function Release(db: Db, p: Pid): Db {
    db.(lock := if db.lock == Some(p) then None else db.lock,
        rowLocks := map u | u in db.rowLocks && db.rowLocks[u] != p :: db.rowLocks[u])
  }

  predicate IsDemotion(from: Role, to: Role) {
    RoleLevel(to) < RoleLevel(from)
  }

  /** The demotions, role by role. */
  ghost predicate Lowers(from: Role, to: Role) {
    match from
    case Superuser => to == Admin || to == User || to == New
    case Admin => to == User || to == New
    case User => to == New
    case New => false
  }

  /** Whom a viewer of this level may see: from 3 on everyone, below it the two lowest roles. */
  ghost predicate InScope(viewerLevel: int, r: Role) {
    viewerLevel >= 3 || r == New || r == User
  }

  /** What the levels come to. */
  lemma LevelsInRoles(level: int, viewer: Role, r: Role, to: Role)
    ensures IsDemotion(r, to) <==> Lowers(r, to)
    ensures VisibleTo(level, r) <==> InScope(level, r)
    ensures VisibleTo(RoleLevel(viewer), r) <==> viewer == Superuser || r == New || r == User
  {
  }

  function AfterUpdate(target: UserId, to: Role, read: Role): Handler {
    if IsDemotion(read, to) then SetDelete(target, to, read) else SetCommit(target, to, read, None)
  }

  /** Commit of a setRole transaction. */
  function CommitRole(db: Db, p: Pid, target: UserId, to: Role, read: Role, revoked: Option<set<Token>>): Db {
    if target !in db.roles then Release(db, p)
    else
      var gone := match revoked case None => {} case Some(rows) => rows;
      Release(db.(roles := db.roles[target := to],
                  sessions := db.sessions - gone,
                  log := db.log + [RoleSet(p, target, read, db.roles[target], to, revoked)]),
              p)
  }

  /** The next statement of p; the same state if it has to wait for a lock. */
  function Advance(s: State, p: Pid): State
    requires p in s.procs
  {
    var db := s.db;
    match s.procs[p]
    case SetLock(target, to) =>
      if db.lock.Some? then s
      else State(db.(lock := Some(p)), s.procs[p := SetRead(target, to)])
    case SetRead(target, to) =>
      if target !in db.roles then State(Release(db, p), s.procs[p := Finished(NotFound)])
      else
        var read := db.roles[target];
        if read == Superuser && to != Superuser then s.(procs := s.procs[p := SetCount(target, to, read)])
        else s.(procs := s.procs[p := SetUpdate(target, to, read)])
    case SetCount(target, to, read) =>
      if |Superusers(db)| <= 1 then State(Release(db, p), s.procs[p := Finished(LastSuperuser)])
      else s.(procs := s.procs[p := SetUpdate(target, to, read)])
    case SetUpdate(target, to, read) =>
      if !RowFree(db, p, target) then s
      else State(if target in db.roles then db.(rowLocks := db.rowLocks[target := p]) else db,
                 s.procs[p := AfterUpdate(target, to, read)])
    case SetDelete(target, to, read) =>
      s.(procs := s.procs[p := SetCommit(target, to, read, Some(SessionsOf(db, target)))])
    case SetCommit(target, to, read, revoked) =>
      State(CommitRole(db, p, target, to, read, revoked),
            s.procs[p := Finished(RoleChanged(read, IsDemotion(read, to)))])
    case VerifyFetch(level, target) =>
      s.(procs := s.procs[p :=
        if target !in db.roles || !VisibleTo(level, db.roles[target]) then Finished(NotFound)
        else if db.roles[target] != New then Finished(NotPending)
        else VerifyUpdate(level, target)])
    case VerifyUpdate(level, target) =>
      if !RowFree(db, p, target) then s
      else if target in db.roles && db.roles[target] == New then
        State(db.(roles := db.roles[target := User]), s.procs[p := Finished(Verified)])
      else s.(procs := s.procs[p := VerifyRecheck(level, target)])
    case VerifyRecheck(level, target) =>
      s.(procs := s.procs[p :=
        if target !in db.roles || !VisibleTo(level, db.roles[target]) then Finished(NotFound)
        else Finished(NotPending)])
    case EditLock(level, target) =>
      if target !in db.roles then s.(procs := s.procs[p := Finished(NotFound)])
      else if !RowFree(db, p, target) then s
      else if !VisibleTo(level, db.roles[target]) then s.(procs := s.procs[p := Finished(NotFound)])
      else State(db.(rowLocks := db.rowLocks[target := p]), s.procs[p := EditWrite(level, target)])
    case EditWrite(level, target) =>
      s.(procs := s.procs[p := EditCommit(level, target)])
    case EditCommit(level, target) =>
      State(Release(db.(log := db.log + [Edited(p, level, target)]), p), s.procs[p := Finished(Updated)])
    case Finished(_) => s
  }

  predicate Entry(h: Handler) {
    h.SetLock? || h.VerifyFetch? || h.EditLock?
  }

  datatype Action =
    | Arrive(pid: Pid, call: Handler)
    | Step(pid: Pid)
    | Rollback(pid: Pid)                  // a statement failed or the connection dropped
    | Register(user: UserId)
    | SignIn(token: Token, user: UserId)
    | SignOut(token: Token)

  /** One action; an action that is not possible changes nothing. */
  function Apply(s: State, a: Action): State {
    match a
    case Arrive(p, call) => if p in s.procs || !Entry(call) then s else s.(procs := s.procs[p := call])
    case Step(p) => if p in s.procs then Advance(s, p) else s
    case Rollback(p) =>
      if p in s.procs && !s.procs[p].Finished? then State(Release(s.db, p), s.procs[p := Finished(RolledBack)]) else s
    case Register(u) => if u in s.db.roles then s else s.(db := s.db.(roles := s.db.roles[u := New]))
    case SignIn(t, u) =>
      if t in s.db.ever || u !in s.db.roles then s
      else s.(db := s.db.(sessions := s.db.sessions[t := u], ever := s.db.ever + {t}))
    case SignOut(t) => s.(db := s.db.(sessions := s.db.sessions - {t}))
  }

  function Run(s: State, schedule: seq<Action>): State
    decreases |schedule|
  {
    if schedule == [] then s else Run(Apply(s, schedule[0]), schedule[1..])
  }

  /** No transaction open yet; at least one superuser. */
  predicate Initial(s: State) {
    && s.procs == map[] && s.db.lock == None && s.db.rowLocks == map[] && s.db.log == []
    && s.db.sessions.Keys <= s.db.ever
    && |Superusers(s.db)| >= 1
  }
}
