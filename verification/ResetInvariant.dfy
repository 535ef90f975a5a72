/** What every reachable state of the password-reset machine satisfies. */
module ResetInvariant {
  import opened Outcomes
  import opened Ids
  import opened ResetDb

  // ---- the table -----------------------------------------------------------------------

  ghost predicate TableOk(db: Db) {
    && (forall t | t in db.tokens ::
      && t in db.birth
      && db.tokens[t].user == db.birth[t].user && db.tokens[t].expires == db.birth[t].expires
      && (db.tokens[t].consumed <==> t in db.used)
      && db.tokens[t].user in db.passwords)
    && db.birth.Keys <= db.issued.Keys
    && db.used.Keys <= db.birth.Keys
  }

  /** At most one unconsumed row per user. */
  ghost predicate OneUnconsumed(db: Db) {
    forall t1, t2 | Open(db, t1) && Open(db, t2) && db.tokens[t1].user == db.tokens[t2].user :: t1 == t2
  }

  predicate Open(db: Db, t: Token) {
    t in db.tokens && !db.tokens[t].consumed
  }

  // ---- the history ---------------------------------------------------------------------

  ghost predicate BeganAt(log: seq<Event>, i: int, p: Pid, u: UserId) {
    0 <= i < |log| && log[i] == Began(p, u)
  }

  ghost predicate CalledBefore(log: seq<Event>, p: Pid, u: UserId, i: int) {
    exists k :: k < i && BeganAt(log, k, p, u)
  }

  ghost predicate InsertedAt(log: seq<Event>, i: int, u: UserId) {
    0 <= i < |log| && log[i].Inserted? && log[i].user == u
  }

  ghost predicate ConsumedAt(log: seq<Event>, i: int, u: UserId, t: Token) {
    0 <= i < |log| && log[i].Consumed? && log[i].user == u && log[i].token == t
  }

  /** Births and uses point at the events that made them. */
  ghost predicate BirthOk(db: Db, t: Token) {
    t in db.birth ==>
      var b := db.birth[t];
      && BeganAt(db.log, b.began, b.pid, b.user) && b.began < b.at
      && InsertedAt(db.log, b.at, b.user) && db.log[b.at] == Inserted(b.pid, b.user, t)
  }

  ghost predicate UseOk(db: Db, t: Token) {
    t in db.used ==>
      && t in db.birth
      && ConsumedAt(db.log, db.used[t], db.birth[t].user, t)
      && db.log[db.used[t]].at < db.birth[t].expires
  }

  ghost predicate BirthsOk(db: Db) {
    forall t :: BirthOk(db, t) && UseOk(db, t)
  }

  ghost predicate EventOk(db: Db, i: int)
    requires 0 <= i < |db.log|
  {
    match db.log[i]
    case Deleted(p, u) => CalledBefore(db.log, p, u, i)
    case Inserted(p, u, t) => t in db.birth && db.birth[t].at == i
    case Consumed(p, u, t, _) => t in db.used && db.used[t] == i
    case PasswordSet(p, u, t, k) => k < i && ConsumedAt(db.log, k, u, t) && db.log[k].pid == p
    case Answered(p, t, Used, _) => t in db.used && db.used[t] < i
    case Answered(p, t, Expired, at) => t in db.birth && t !in db.used && db.birth[t].expires <= at <= db.now
    case _ => true
  }

  ghost predicate LogOk(db: Db) {
    forall i | 0 <= i < |db.log| :: EventOk(db, i)
  }

  predicate ByRequest(e: Event, p: Pid) {
    !e.Erased? && e.pid == p
  }

  /** A request logs nothing after its return. */
  ghost predicate NothingAfterEnd(log: seq<Event>) {
    forall i, j, p | 0 <= i < j < |log| && log[i] == Ended(p) :: !ByRequest(log[j], p)
  }

  // ---- the requests --------------------------------------------------------------------

  ghost predicate Holds(db: Db, p: Pid, t: Token) {
    t in db.issued && db.issued[t] == p && t !in db.birth
  }

  /** The call began where it says, and was blocked by successive inserts of
      other calls for the same user. */
  ghost predicate CallOk(db: Db, p: Pid, c: Call) {
    && BeganAt(db.log, c.began, p, c.user)
    && (forall k | 0 <= k < |c.blocks| ::
        c.began < c.blocks[k] && InsertedAt(db.log, c.blocks[k], c.user) && db.log[c.blocks[k]].pid != p)
    && (forall k, l | 0 <= k < l < |c.blocks| :: c.blocks[k] < c.blocks[l])
  }

  /** Since this attempt's DELETE, every row of the user was inserted later. */
  ghost predicate SinceOk(db: Db, p: Pid, c: Call, since: nat) {
    && |c.blocks| < MAX_ATTEMPTS
    && c.began < since < |db.log|
    && (forall k | 0 <= k < |c.blocks| :: c.blocks[k] < since)
    && (forall t | t in db.tokens && db.tokens[t].user == c.user :: t in db.birth && db.birth[t].at > since)
  }

  ghost predicate ReturnOk(db: Db, p: Pid, r: Response) {
    match r
    case Issued(t) => t in db.birth && db.birth[t].pid == p
    case Contention(c) => CallOk(db, p, c) && |c.blocks| == MAX_ATTEMPTS
    case _ => true
  }

  ghost predicate Known(db: Db, t: Token) {
    t in db.presented && (t in db.birth || t !in db.issued)
  }

  ghost predicate ProcOk(db: Db, p: Pid, h: Handler)
    requires TableOk(db)
  {
    match h
    case IssueDelete(c) => CallOk(db, p, c) && |c.blocks| < MAX_ATTEMPTS
    case IssueName(c, since) => CallOk(db, p, c) && SinceOk(db, p, c, since)
    case IssueStamp(c, since, t) => CallOk(db, p, c) && SinceOk(db, p, c, since) && Holds(db, p, t)
    case IssueInsert(c, since, t, _) => CallOk(db, p, c) && SinceOk(db, p, c, since) && Holds(db, p, t)
    case IssueReturn(r) => ReturnOk(db, p, r)
    case ConfirmConsume(t, _) => Known(db, t)
    case ConfirmClassify(t) => Known(db, t) && !Consumable(db, t)
    case ConfirmWrite(t, u, _, k) => ConsumedAt(db.log, k, u, t) && db.log[k].pid == p
    case Finished(r) => ReturnOk(db, p, r)
  }

  ghost predicate ProcsOk(s: State)
    requires TableOk(s.db)
  {
    forall p | p in s.procs :: ProcOk(s.db, p, s.procs[p])
  }

  /** A request that logged something is past the step that logs it. */
  ghost predicate StageOk(s: State, e: Event) {
    match e
    case Inserted(p, _, t) =>
      p in s.procs && (s.procs[p] == IssueReturn(Issued(t)) || s.procs[p] == Finished(Issued(t)))
    case Ended(p) => p in s.procs && s.procs[p].Finished?
    case Consumed(p, _, _, _) => p in s.procs && (s.procs[p].ConfirmWrite? || s.procs[p].Finished?)
    case PasswordSet(p, _, _, _) => p in s.procs && s.procs[p].Finished?
    case Erased(_) => true
    case _ => e.pid in s.procs
  }

  ghost predicate StagesOk(s: State) {
    forall i | 0 <= i < |s.db.log| :: StageOk(s, s.db.log[i])
  }

  /** A request that logged d does not log e later. */
  ghost predicate Excludes(d: Event, e: Event) {
    || (d.Inserted? && (e.Inserted? || e.Deleted?))
    || (d.Consumed? && e.Consumed?) || (d.PasswordSet? && e.PasswordSet?)
  }

  /** A call inserts at most once, and deletes only before that; a confirm
      consumes and writes at most once. */
  ghost predicate OncePerRequest(log: seq<Event>) {
    forall i, j | 0 <= i < j < |log| && Excludes(log[i], log[j]) :: log[i].pid != log[j].pid
  }

  /** One issueToken call per request. */
  ghost predicate OneCall(log: seq<Event>) {
    forall i, j | 0 <= i < j < |log| && log[i].Began? && log[j].Began? :: log[i].pid != log[j].pid
  }

  /** A call that returned contention logged its return after the last blocking insert. */
  ghost predicate ReturnsLast(s: State) {
    forall i | 0 <= i < |s.db.log| && s.db.log[i].Ended? :: ReturnedAfterBlocks(s, s.db.log[i].pid, i)
  }

  ghost predicate ReturnedAfterBlocks(s: State, p: Pid, i: int) {
    p in s.procs && s.procs[p].Finished? && s.procs[p].response.Contention? ==>
      forall k | 0 <= k < |s.procs[p].response.call.blocks| :: s.procs[p].response.call.blocks[k] < i
  }

  // ---- quiescence ----------------------------------------------------------------------

  predicate Between(h: Handler, u: UserId) {
    (h.IssueName? || h.IssueStamp? || h.IssueInsert?) && h.call.user == u
  }

  ghost predicate DeletedFor(e: Event, u: UserId) {
    e.Deleted? && e.user == u
  }

  /** The event took away whatever unconsumed token u had. */
  ghost predicate Disturbs(e: Event, u: UserId) {
    DeletedFor(e, u) || (e.Consumed? && e.user == u) || e == Erased(u)
  }

  ghost predicate CalmSince(log: seq<Event>, i: int, u: UserId) {
    forall j | i < j < |log| && 0 <= j :: !Disturbs(log[j], u)
  }

  /** The unconsumed rows are exactly those of the inserts nothing has disturbed since. */
  ghost predicate LiveOk(db: Db) {
    && (forall i, u {:trigger InsertedAt(db.log, i, u)} | InsertedAt(db.log, i, u) && CalmSince(db.log, i, u) ::
          Unconsumed(db, db.log[i].token, u))
    && (forall t | Open(db, t) :: t in db.birth && CalmSince(db.log, db.birth[t].at, db.tokens[t].user))
  }

  /** log[d] is the last DELETE for u, and no token of u was consumed since, nor u erased. */
  ghost predicate LastDelete(log: seq<Event>, d: int, u: UserId) {
    0 <= d < |log| && DeletedFor(log[d], u) && CalmSince(log, d, u)
  }

  ghost predicate NoInsertSince(log: seq<Event>, d: int, u: UserId) {
    forall i | d < i :: !InsertedAt(log, i, u)
  }

  /** The call answered, or is about to answer, with an error other than contention. */
  predicate FailedIssue(h: Handler) {
    h == IssueReturn(Failure) || h == Finished(Failure)
  }

  /** Until somebody inserts, the call of the last DELETE for u is on its way to
      its INSERT, or it failed. */
  ghost predicate DeletesOk(s: State) {
    forall d, u | LastDelete(s.db.log, d, u) && NoInsertSince(s.db.log, d, u) :: OnItsWay(s, s.db.log[d].pid, u)
  }

  predicate OnItsWay(s: State, p: Pid, u: UserId) {
    p in s.procs && (Between(s.procs[p], u) || FailedIssue(s.procs[p]))
  }

  /** An unconsumed row is the user's last successful insert. */
  ghost predicate LastInsertWins(db: Db)
    requires TableOk(db)
  {
    forall t, i | Open(db, t) && InsertedAt(db.log, i, db.tokens[t].user) :: i <= db.birth[t].at
  }

  ghost predicate Inv(s: State) {
    && TableOk(s.db) && OneUnconsumed(s.db) && BirthsOk(s.db)
    && LogOk(s.db) && NothingAfterEnd(s.db.log)
    && ProcsOk(s) && StagesOk(s) && OncePerRequest(s.db.log) && OneCall(s.db.log) && ReturnsLast(s)
    && LiveOk(s.db) && DeletesOk(s) && LastInsertWins(s.db)
  }

  // ======== statements ====================================================================

  ghost predicate StmtOk(db: Db, p: Pid, stmt: Stmt) {
    match stmt
    case InsertToken(t, u, _, began) => Holds(db, p, t) && BeganAt(db.log, began, p, u)
    case DeleteTokens(u) => CalledBefore(db.log, p, u, |db.log|)
    case FindToken(t) => !Consumable(db, t)
    case SetPassword(u, _, t, k) => ConsumedAt(db.log, k, u, t) && db.log[k].pid == p
    case _ => true
  }

  ghost predicate DbOk(db: Db) {
    && TableOk(db) && OneUnconsumed(db) && BirthsOk(db) && LogOk(db) && LastInsertWins(db)
  }

  lemma ExecTable(db: Db, p: Pid, stmt: Stmt)
    requires TableOk(db) && OneUnconsumed(db) && StmtOk(db, p, stmt)
    ensures TableOk(Exec(db, p, stmt).0) && OneUnconsumed(Exec(db, p, stmt).0)
  {
    var db' := Exec(db, p, stmt).0;
    if stmt.InsertToken? && Blockers(db, stmt.user) == {} { NoneOpen(db, stmt.user); }
  }

  lemma NoneOpen(db: Db, u: UserId)
    requires Blockers(db, u) == {}
    ensures forall t | Open(db, t) :: db.tokens[t].user != u
  {
    forall t | Open(db, t) ensures db.tokens[t].user != u { assert t !in Blockers(db, u); }
  }

  /** History only grows, and a token is stored and consumed at most once. */
  ghost predicate Grows(db: Db, db': Db) {
    && db.now <= db'.now && db.log <= db'.log && db.presented <= db'.presented
    && (forall t | t in db.issued :: t in db'.issued && db'.issued[t] == db.issued[t])
    && (forall t | t in db.birth :: t in db'.birth && db'.birth[t] == db.birth[t])
    && (forall t | t in db.used :: t in db'.used && db'.used[t] == db.used[t])
    && (forall t | t in db.birth && t !in db.tokens :: t !in db'.tokens && (t in db'.used ==> t in db.used))
    && (forall t | t in db'.issued && t !in db.issued :: t !in db.presented)
    && (forall t | t in db.birth && t !in db.used && t in db'.used ::
        db'.used[t] >= |db.log| && db.birth[t].expires > db.now)
  }

  lemma ExecGrows(db: Db, p: Pid, stmt: Stmt)
    requires TableOk(db) && StmtOk(db, p, stmt)
    ensures Grows(db, Exec(db, p, stmt).0)
  {
    match stmt
    case InsertToken(t, u, expires, began) => InsertGrows(db, p, t, u, expires, began);
    case Consume(t) => ConsumeGrows(db, p, t);
    case _ =>
  }

  lemma InsertGrows(db: Db, p: Pid, t: Token, u: UserId, expires: Time, began: nat)
    requires TableOk(db) && Holds(db, p, t)
    ensures Grows(db, Exec(db, p, InsertToken(t, u, expires, began)).0)
  {
  }

  lemma ConsumeGrows(db: Db, p: Pid, t: Token)
    requires TableOk(db)
    ensures Grows(db, Exec(db, p, Consume(t)).0)
  {
  }

  lemma ExecBirths(db: Db, p: Pid, stmt: Stmt)
    requires TableOk(db) && BirthsOk(db) && StmtOk(db, p, stmt)
    ensures BirthsOk(Exec(db, p, stmt).0)
  {
    ExecGrows(db, p, stmt);
    var db' := Exec(db, p, stmt).0;
    assert forall i | 0 <= i < |db.log| :: db'.log[i] == db.log[i];
    forall t
      ensures BirthOk(db', t) && UseOk(db', t)
    {
      assert BirthOk(db, t) && UseOk(db, t);
    }
  }

  lemma ExecLog(db: Db, p: Pid, stmt: Stmt)
    requires TableOk(db) && BirthsOk(db) && LogOk(db) && StmtOk(db, p, stmt)
    ensures LogOk(Exec(db, p, stmt).0)
  {
    ExecGrows(db, p, stmt);
    var db' := Exec(db, p, stmt).0;
    forall i | 0 <= i < |db'.log|
      ensures EventOk(db', i)
    {
      if i < |db.log| { EventStays(db, db', i); } else { NewEventOk(db, p, stmt); }
    }
  }

  lemma EventStays(db: Db, db': Db, i: int)
    requires Grows(db, db') && 0 <= i < |db.log| && EventOk(db, i)
    requires BirthsOk(db)
    ensures EventOk(db', i)
  {
    assert forall k | 0 <= k < |db.log| :: db'.log[k] == db.log[k];
    if db.log[i].Answered? { assert UseOk(db, db.log[i].token); }
    if db.log[i].Deleted? { CalledStays(db.log, db'.log, db.log[i].pid, db.log[i].user, i); }
  }

  lemma CalledStays(log: seq<Event>, log': seq<Event>, p: Pid, u: UserId, i: int)
    requires log <= log' && CalledBefore(log, p, u, i)
    ensures CalledBefore(log', p, u, i)
  {
    var k :| k < i && BeganAt(log, k, p, u);
    assert log'[k] == log[k];
    assert BeganAt(log', k, p, u);
  }

  lemma NewEventOk(db: Db, p: Pid, stmt: Stmt)
    requires TableOk(db) && BirthsOk(db) && StmtOk(db, p, stmt) && |Exec(db, p, stmt).0.log| > |db.log|
    ensures |Exec(db, p, stmt).0.log| == |db.log| + 1 && EventOk(Exec(db, p, stmt).0, |db.log|)
  {
    if stmt.FindToken? { assert UseOk(db, stmt.token); }
    if stmt.DeleteTokens? { CalledStays(db.log, Exec(db, p, stmt).0.log, p, stmt.user, |db.log|); }
  }

  lemma ExecLast(db: Db, p: Pid, stmt: Stmt)
    requires DbOk(db) && StmtOk(db, p, stmt) && TableOk(Exec(db, p, stmt).0)
    ensures LastInsertWins(Exec(db, p, stmt).0)
  {
    var db' := Exec(db, p, stmt).0;
    ExecGrows(db, p, stmt);
    forall t, i | Open(db', t) && InsertedAt(db'.log, i, db'.tokens[t].user)
      ensures i <= db'.birth[t].at
    {
      if t in db.tokens { OldRowLast(db, p, stmt, t, i); }
    }
  }

  lemma OldRowLast(db: Db, p: Pid, stmt: Stmt, t: Token, i: int)
    requires DbOk(db) && Grows(db, Exec(db, p, stmt).0) && t in db.tokens
    requires Open(Exec(db, p, stmt).0, t) && InsertedAt(Exec(db, p, stmt).0.log, i, Exec(db, p, stmt).0.tokens[t].user)
    ensures t in db.birth && i <= db.birth[t].at
  {
    OpenRowStays(db, p, stmt, t);
    var u := db.tokens[t].user;
    if i < |db.log| {
      assert InsertedAt(db.log, i, u) by { assert Exec(db, p, stmt).0.log[i] == db.log[i]; }
    } else {
      NewInsert(db, p, stmt, i, u);
    }
  }

  lemma OpenRowStays(db: Db, p: Pid, stmt: Stmt, t: Token)
    requires t in db.tokens && Open(Exec(db, p, stmt).0, t)
    ensures Open(db, t) && Exec(db, p, stmt).0.tokens[t] == db.tokens[t]
  {
  }

  lemma NewInsert(db: Db, p: Pid, stmt: Stmt, i: int, u: UserId)
    requires |db.log| <= i && InsertedAt(Exec(db, p, stmt).0.log, i, u)
    ensures forall t | Open(db, t) :: db.tokens[t].user != u
  {
    assert stmt.InsertToken? && stmt.user == u && Blockers(db, u) == {};
    NoneOpen(db, u);
  }

  // ======== requests ======================================================================

  lemma NextOk(db: Db, p: Pid, h: Handler, draw: Token)
    requires TableOk(db) && ProcOk(db, p, h) && !h.Finished?
    ensures StmtOk(db, p, Next(h, draw))
  {
    if h.IssueDelete? { assert BeganAt(db.log, h.call.began, p, h.call.user); }
  }

  lemma CallStays(db: Db, db': Db, p: Pid, c: Call)
    requires db.log <= db'.log && CallOk(db, p, c)
    ensures CallOk(db', p, c)
  {
    assert forall i | 0 <= i < |db.log| :: db'.log[i] == db.log[i];
  }

  lemma SinceStays(db: Db, p: Pid, stmt: Stmt, q: Pid, c: Call, since: nat)
    requires TableOk(db) && StmtOk(db, p, stmt) && SinceOk(db, q, c, since)
    ensures SinceOk(Exec(db, p, stmt).0, q, c, since)
  {
    ExecGrows(db, p, stmt);
  }

  lemma KnownStays(db: Db, p: Pid, stmt: Stmt, t: Token)
    requires TableOk(db) && StmtOk(db, p, stmt) && Known(db, t)
    ensures Known(Exec(db, p, stmt).0, t)
    ensures !Consumable(db, t) ==> !Consumable(Exec(db, p, stmt).0, t)
  {
  }

  lemma HoldStays(db: Db, p: Pid, stmt: Stmt, q: Pid, t: Token)
    requires TableOk(db) && StmtOk(db, p, stmt) && Holds(db, q, t) && q != p
    ensures Holds(Exec(db, p, stmt).0, q, t)
  {
  }

  lemma ReturnStays(db: Db, db': Db, p: Pid, r: Response)
    requires Grows(db, db') && ReturnOk(db, p, r)
    ensures ReturnOk(db', p, r)
  {
    if r.Contention? { CallStays(db, db', p, r.call); }
  }

  lemma OthersOk(db: Db, p: Pid, stmt: Stmt, q: Pid, h: Handler)
    requires TableOk(db) && StmtOk(db, p, stmt) && TableOk(Exec(db, p, stmt).0)
    requires q != p && ProcOk(db, q, h)
    ensures ProcOk(Exec(db, p, stmt).0, q, h)
  {
    ExecGrows(db, p, stmt);
    var db' := Exec(db, p, stmt).0;
    match h
    case IssueDelete(c) =>
      CallStays(db, db', q, c);
    case IssueName(c, since) =>
      CallStays(db, db', q, c); SinceStays(db, p, stmt, q, c, since);
    case IssueStamp(c, since, t) =>
      CallStays(db, db', q, c); SinceStays(db, p, stmt, q, c, since); HoldStays(db, p, stmt, q, t);
    case IssueInsert(c, since, t, _) =>
      CallStays(db, db', q, c); SinceStays(db, p, stmt, q, c, since); HoldStays(db, p, stmt, q, t);
    case IssueReturn(r) => ReturnStays(db, db', q, r);
    case Finished(r) => ReturnStays(db, db', q, r);
    case ConfirmConsume(t, _) => KnownStays(db, p, stmt, t);
    case ConfirmClassify(t) => KnownStays(db, p, stmt, t);
    case ConfirmWrite(t, u, _, k) => assert db'.log[k] == db.log[k];
  }

  /** The blocking row of a unique violation was inserted since this attempt's
      DELETE, by another call for the same user. */
  lemma ViolationOk(db: Db, p: Pid, c: Call, since: nat, t: Token, expires: Time)
    requires TableOk(db) && BirthsOk(db) && CallOk(db, p, c) && SinceOk(db, p, c, since)
    requires forall i | 0 <= i < |db.log| && db.log[i].Inserted? :: db.log[i].pid != p
    ensures var reply := Exec(db, p, InsertToken(t, c.user, expires, c.began)).1;
      reply.Violation? ==> CallOk(db, p, c.(blocks := c.blocks + [reply.insert]))
  {
    forall b | b in Blockers(db, c.user)
      ensures b in db.birth && InsertedAt(db.log, db.birth[b].at, c.user) && db.birth[b].at > since
    {
      assert BirthOk(db, b);
    }
  }

  lemma OwnInsert(db: Db, p: Pid, h: Handler, draw: Token)
    requires DbOk(db) && ProcOk(db, p, h) && h.IssueInsert? && StmtOk(db, p, Next(h, draw))
    requires TableOk(Exec(db, p, Next(h, draw)).0)
    requires forall i | 0 <= i < |db.log| && db.log[i].Inserted? :: db.log[i].pid != p
    ensures ProcOk(Exec(db, p, Next(h, draw)).0, p, Resume(h, draw, Exec(db, p, Next(h, draw)).1))
  {
    ViolationOk(db, p, h.call, h.since, h.token, h.expires);
    var (db', reply) := Exec(db, p, Next(h, draw));
    match reply
    case Violation(i) =>
      assert db' == db;
      var again := h.call.(blocks := h.call.blocks + [i]);
      assert CallOk(db, p, again);
    case Logged(_) =>
      assert Resume(h, draw, reply) == IssueReturn(Issued(h.token));
    case _ =>
  }

  lemma OwnDelete(db: Db, p: Pid, c: Call)
    requires TableOk(db) && CallOk(db, p, c) && |c.blocks| < MAX_ATTEMPTS
    ensures var db' := Exec(db, p, DeleteTokens(c.user)).0; CallOk(db', p, c) && SinceOk(db', p, c, |db.log|)
  {
    CallStays(db, Exec(db, p, DeleteTokens(c.user)).0, p, c);
  }

  lemma OwnOk(db: Db, p: Pid, h: Handler, draw: Token)
    requires DbOk(db) && ProcOk(db, p, h) && !h.Finished? && StmtOk(db, p, Next(h, draw))
    requires TableOk(Exec(db, p, Next(h, draw)).0)
    requires !Exec(db, p, Next(h, draw)).1.Blocked?
    requires h.IssueInsert? ==> forall i | 0 <= i < |db.log| && db.log[i].Inserted? :: db.log[i].pid != p
    ensures ProcOk(Exec(db, p, Next(h, draw)).0, p, Resume(h, draw, Exec(db, p, Next(h, draw)).1))
  {
    var stmt := Next(h, draw);
    if h.IssueInsert? {
      OwnInsert(db, p, h, draw);
    } else {
      ExecGrows(db, p, stmt);
      var db' := Exec(db, p, stmt).0;
      match h
      case IssueDelete(c) =>
        OwnDelete(db, p, c);
      case IssueName(c, since) =>
        CallStays(db, db', p, c); SinceStays(db, p, stmt, p, c, since);
      case IssueReturn(r) =>
        ReturnStays(db, db', p, r);
      case IssueStamp(_, _, _) =>
      case _ =>
        OwnConfirm(db, p, h, draw);
    }
  }

  lemma OwnConfirm(db: Db, p: Pid, h: Handler, draw: Token)
    requires DbOk(db) && ProcOk(db, p, h) && (h.ConfirmConsume? || h.ConfirmWrite? || h.ConfirmClassify?)
    requires StmtOk(db, p, Next(h, draw))
    requires TableOk(Exec(db, p, Next(h, draw)).0)
    ensures ProcOk(Exec(db, p, Next(h, draw)).0, p, Resume(h, draw, Exec(db, p, Next(h, draw)).1))
  {
  }

  // ======== the history ===================================================================

  lemma ExecEvent(db: Db, p: Pid, stmt: Stmt)
    requires Exec(db, p, stmt).0.log != db.log
    ensures var log' := Exec(db, p, stmt).0.log; var reply := Exec(db, p, stmt).1;
      && log' == db.log + [log'[|db.log|]]
      && ByRequest(log'[|db.log|], p)
      && (match log'[|db.log|]
          case Inserted(_, u, t) => stmt.InsertToken? && stmt.token == t && stmt.user == u && reply.Logged?
          case Consumed(_, u, _, _) => stmt.Consume? && reply.Owner? && reply.user == Some(u)
          case PasswordSet(_, _, _, _) => stmt.SetPassword?
          case Ended(_) => stmt.Return?
          case Deleted(_, u) => stmt == DeleteTokens(u)
          case Began(_, _) => false
          case _ => true)
  {
  }

  /** What an action of request p logs, and the stage that logs it. */
  lemma LoggedBy(s: State, p: Pid, draw: Token)
    requires p in s.procs && !s.procs[p].Finished?
    requires Advance(s, p, draw).db.log != s.db.log
    ensures var s' := Advance(s, p, draw); var n := |s.db.log|;
      && s'.db.log == s.db.log + [s'.db.log[n]]
      && ByRequest(s'.db.log[n], p)
      && (match s'.db.log[n]
          case Inserted(_, u, t) => s.procs[p].IssueInsert? && s'.procs[p] == IssueReturn(Issued(t))
          case Consumed(_, _, _, _) => s.procs[p].ConfirmConsume? && s'.procs[p].ConfirmWrite?
          case PasswordSet(_, _, _, _) => s.procs[p].ConfirmWrite? && s'.procs[p].Finished?
          case Ended(_) => s.procs[p].IssueReturn? && s'.procs[p] == Finished(s.procs[p].response)
          case Began(_, _) => false
          case _ => true)
  {
    var h := s.procs[p];
    ExecEvent(s.db, p, Next(h, draw));
    match h
    case IssueInsert(_, _, _, _) =>
    case IssueReturn(_) =>
    case ConfirmConsume(_, _) =>
    case ConfirmWrite(_, _, _, _) =>
    case _ =>
  }

  lemma AdvanceStage(s: State, p: Pid, draw: Token, e: Event)
    requires p in s.procs && !s.procs[p].Finished? && StageOk(s, e)
    ensures StageOk(Advance(s, p, draw), e)
  {
  }

  lemma AdvanceHistory(s: State, p: Pid, draw: Token)
    requires Inv(s) && p in s.procs && !s.procs[p].Finished?
    ensures var s' := Advance(s, p, draw);
      StagesOk(s') && OncePerRequest(s'.db.log) && OneCall(s'.db.log) && NothingAfterEnd(s'.db.log)
  {
    var s' := Advance(s, p, draw);
    var n := |s.db.log|;
    if s'.db.log != s.db.log { LoggedBy(s, p, draw); }
    forall i | 0 <= i < |s'.db.log|
      ensures StageOk(s', s'.db.log[i])
    {
      if i < n {
        assert s'.db.log[i] == s.db.log[i];
        AdvanceStage(s, p, draw, s.db.log[i]);
      }
    }
    forall i, j | 0 <= i < j < |s'.db.log|
      ensures Excludes(s'.db.log[i], s'.db.log[j]) ==> s'.db.log[i].pid != s'.db.log[j].pid
      ensures s'.db.log[i].Began? && s'.db.log[j].Began? ==> s'.db.log[i].pid != s'.db.log[j].pid
      ensures forall q | s'.db.log[i] == Ended(q) :: !ByRequest(s'.db.log[j], q)
    {
      assert s'.db.log[i] == s.db.log[i] && StageOk(s, s.db.log[i]);
      if j < n { assert s'.db.log[j] == s.db.log[j]; }
    }
  }

  lemma AdvanceReturns(s: State, p: Pid, draw: Token)
    requires Inv(s) && p in s.procs && !s.procs[p].Finished?
    ensures ReturnsLast(Advance(s, p, draw))
  {
    var s' := Advance(s, p, draw);
    var n := |s.db.log|;
    if s'.db.log != s.db.log { LoggedBy(s, p, draw); }
    forall i | 0 <= i < |s'.db.log| && s'.db.log[i].Ended?
      ensures ReturnedAfterBlocks(s', s'.db.log[i].pid, i)
    {
      if i < n {
        assert s'.db.log[i] == s.db.log[i];
        assert StageOk(s, s.db.log[i]) && ReturnedAfterBlocks(s, s.db.log[i].pid, i);
      } else {
        assert ProcOk(s.db, p, s.procs[p]);
      }
    }
  }

  // ======== quiescence ====================================================================

  lemma CalmBefore(log: seq<Event>, e: Event, i: int, u: UserId)
    requires 0 <= i < |log|
    ensures CalmSince(log + [e], i, u) <==> CalmSince(log, i, u) && !Disturbs(e, u)
  {
    var log' := log + [e];
    assert log'[|log|] == e;
    assert forall j | 0 <= j < |log| :: log'[j] == log[j];
  }

  lemma InsertBefore(log: seq<Event>, e: Event, i: int, u: UserId)
    requires 0 <= i < |log|
    ensures InsertedAt(log + [e], i, u) <==> InsertedAt(log, i, u)
    ensures NoInsertSince(log + [e], i, u) <==> NoInsertSince(log, i, u) && !(e.Inserted? && e.user == u)
  {
    var log' := log + [e];
    assert forall j | 0 <= j < |log| :: log'[j] == log[j];
    assert InsertedAt(log', |log|, u) <==> e.Inserted? && e.user == u;
    assert forall j | j != |log| :: InsertedAt(log', j, u) <==> InsertedAt(log, j, u);
  }

  lemma RowStays(db: Db, p: Pid, stmt: Stmt, t: Token, u: UserId)
    requires Unconsumed(db, t, u)
    ensures var db' := Exec(db, p, stmt).0;
      Unconsumed(db', t, u) || stmt == DeleteTokens(u) || (|db'.log| == |db.log| + 1 && Disturbs(db'.log[|db.log|], u))
  {
  }

  lemma LogAppends(db: Db, p: Pid, stmt: Stmt)
    requires Exec(db, p, stmt).0.log != db.log
    ensures Exec(db, p, stmt).0.log == db.log + [Exec(db, p, stmt).0.log[|db.log|]]
  {
  }

  lemma ExecLive(db: Db, p: Pid, stmt: Stmt)
    requires TableOk(db) && OneUnconsumed(db) && BirthsOk(db) && StmtOk(db, p, stmt) && LiveOk(db)
    ensures LiveOk(Exec(db, p, stmt).0)
  {
    var db' := Exec(db, p, stmt).0;
    forall i, u | InsertedAt(db'.log, i, u) && CalmSince(db'.log, i, u)
      ensures Unconsumed(db', db'.log[i].token, u)
    {
      InsertsStayLive(db, p, stmt, i, u);
    }
    forall t | Open(db', t)
      ensures t in db'.birth && CalmSince(db'.log, db'.birth[t].at, db'.tokens[t].user)
    {
      if t in db.tokens { OpenStaysCalm(db, p, stmt, t); }
    }
  }

  lemma InsertsStayLive(db: Db, p: Pid, stmt: Stmt, i: int, u: UserId)
    requires LiveOk(db) && InsertedAt(Exec(db, p, stmt).0.log, i, u) && CalmSince(Exec(db, p, stmt).0.log, i, u)
    ensures Unconsumed(Exec(db, p, stmt).0, Exec(db, p, stmt).0.log[i].token, u)
  {
    var db' := Exec(db, p, stmt).0;
    if i < |db.log| {
      if db'.log != db.log {
        LogAppends(db, p, stmt);
        CalmBefore(db.log, db'.log[|db.log|], i, u);
      }
      assert InsertedAt(db.log, i, u);
      RowStays(db, p, stmt, db.log[i].token, u);
      DeleteDisturbs(db, p, u);
    }
  }

  lemma DeleteDisturbs(db: Db, p: Pid, u: UserId)
    ensures Disturbs(Exec(db, p, DeleteTokens(u)).0.log[|db.log|], u)
  {
  }

  lemma OpenStaysCalm(db: Db, p: Pid, stmt: Stmt, t: Token)
    requires TableOk(db) && OneUnconsumed(db) && BirthsOk(db) && StmtOk(db, p, stmt) && LiveOk(db)
    requires t in db.tokens && Open(Exec(db, p, stmt).0, t)
    ensures var db' := Exec(db, p, stmt).0;
      t in db'.birth && CalmSince(db'.log, db'.birth[t].at, db'.tokens[t].user)
  {
    var db' := Exec(db, p, stmt).0;
    OpenRowStays(db, p, stmt, t);
    ExecGrows(db, p, stmt);
    if db'.log != db.log {
      LogAppends(db, p, stmt);
      assert BirthOk(db, t);
      CalmBefore(db.log, db'.log[|db.log|], db.birth[t].at, db.tokens[t].user);
      UndisturbedRow(db, p, stmt, t);
    }
  }

  /** A statement that leaves a row unconsumed does not disturb its user. */
  lemma UndisturbedRow(db: Db, p: Pid, stmt: Stmt, t: Token)
    requires OneUnconsumed(db) && Open(db, t) && Open(Exec(db, p, stmt).0, t) && |Exec(db, p, stmt).0.log| > |db.log|
    ensures !Disturbs(Exec(db, p, stmt).0.log[|db.log|], db.tokens[t].user)
  {
    if stmt.Consume? { assert Open(db, stmt.token); }
  }

  // ---- the call of the last DELETE ---------------------------------------------------------

  lemma AdvanceDeletes(s: State, p: Pid, draw: Token)
    requires Inv(s) && p in s.procs && !s.procs[p].Finished?
    ensures DeletesOk(Advance(s, p, draw))
  {
    var s' := Advance(s, p, draw);
    forall d, u | LastDelete(s'.db.log, d, u) && NoInsertSince(s'.db.log, d, u)
      ensures OnItsWay(s', s'.db.log[d].pid, u)
    {
      if d < |s.db.log| {
        OldDelete(s, p, draw, d, u);
      } else {
        LoggedBy(s, p, draw);
        ExecEvent(s.db, p, Next(s.procs[p], draw));
        NewDelete(s, p, draw, u);
      }
    }
  }

  lemma NewDelete(s: State, p: Pid, draw: Token, u: UserId)
    requires p in s.procs && !s.procs[p].Finished? && Next(s.procs[p], draw) == DeleteTokens(u)
    ensures OnItsWay(Advance(s, p, draw), p, u)
  {
  }

  lemma OldDelete(s: State, p: Pid, draw: Token, d: int, u: UserId)
    requires Inv(s) && p in s.procs && !s.procs[p].Finished? && d < |s.db.log|
    requires LastDelete(Advance(s, p, draw).db.log, d, u) && NoInsertSince(Advance(s, p, draw).db.log, d, u)
    ensures OnItsWay(Advance(s, p, draw), Advance(s, p, draw).db.log[d].pid, u)
  {
    var s' := Advance(s, p, draw);
    if s'.db.log != s.db.log {
      LoggedBy(s, p, draw);
      CalmBefore(s.db.log, s'.db.log[|s.db.log|], d, u);
      InsertBefore(s.db.log, s'.db.log[|s.db.log|], d, u);
    }
    assert s'.db.log[d] == s.db.log[d];
    assert LastDelete(s.db.log, d, u) && NoInsertSince(s.db.log, d, u);
    var q := s.db.log[d].pid;
    assert OnItsWay(s, q, u);
    if q == p { StillOnItsWay(s, p, draw, d, u); }
  }

  lemma StillOnItsWay(s: State, p: Pid, draw: Token, d: int, u: UserId)
    requires Inv(s) && p in s.procs && !s.procs[p].Finished? && OnItsWay(s, p, u)
    requires LastDelete(s.db.log, d, u) && NoInsertSince(s.db.log, d, u)
    requires NoInsertSince(Advance(s, p, draw).db.log, d, u)
    ensures OnItsWay(Advance(s, p, draw), p, u)
  {
    if s.procs[p].IssueInsert? {
      NobodyInTheWay(s.db, d, u);
      InsertOnItsWay(s, p, draw, d, u);
    }
  }

  lemma InsertOnItsWay(s: State, p: Pid, draw: Token, d: int, u: UserId)
    requires p in s.procs && s.procs[p].IssueInsert? && s.procs[p].call.user == u
    requires Blockers(s.db, u) == {} && d < |s.db.log|
    requires NoInsertSince(Advance(s, p, draw).db.log, d, u)
    ensures OnItsWay(Advance(s, p, draw), p, u)
  {
    var s' := Advance(s, p, draw);
    if s'.db.log != s.db.log { assert InsertedAt(s'.db.log, |s.db.log|, u); }
  }

  /** No unconsumed row is left from before the last DELETE. */
  lemma NobodyInTheWay(db: Db, d: int, u: UserId)
    requires TableOk(db) && BirthsOk(db) && LiveOk(db) && LastDelete(db.log, d, u) && NoInsertSince(db.log, d, u)
    ensures Blockers(db, u) == {}
  {
    forall b | b in Blockers(db, u) ensures false {
      assert Open(db, b) && BirthOk(db, b);
      assert InsertedAt(db.log, db.birth[b].at, u);
      assert CalmSince(db.log, db.birth[b].at, u);
      assert Disturbs(db.log[d], u);
    }
  }

  // ======== every action, every run =========================================================

  lemma AdvanceKeeps(s: State, p: Pid, draw: Token)
    requires Inv(s) && p in s.procs && !s.procs[p].Finished?
    ensures Inv(Advance(s, p, draw))
  {
    var h := s.procs[p];
    var stmt := Next(h, draw);
    NextOk(s.db, p, h, draw);
    ExecTable(s.db, p, stmt);
    ExecBirths(s.db, p, stmt);
    ExecLog(s.db, p, stmt);
    ExecLast(s.db, p, stmt);
    AdvanceHistory(s, p, draw);
    AdvanceReturns(s, p, draw);
    ExecLive(s.db, p, stmt);
    AdvanceDeletes(s, p, draw);
    var s' := Advance(s, p, draw);
    forall q | q in s'.procs
      ensures ProcOk(s'.db, q, s'.procs[q])
    {
      if q != p { OthersOk(s.db, p, stmt, q, s.procs[q]); }
      else if !Exec(s.db, p, stmt).1.Blocked? { AdvanceOwn(s, p, draw); }
    }
  }

  lemma AdvanceOwn(s: State, p: Pid, draw: Token)
    requires Inv(s) && p in s.procs && !s.procs[p].Finished?
    requires TableOk(Advance(s, p, draw).db) && !Exec(s.db, p, Next(s.procs[p], draw)).1.Blocked?
    ensures ProcOk(Advance(s, p, draw).db, p, Advance(s, p, draw).procs[p])
  {
    NextOk(s.db, p, s.procs[p], draw);
    if s.procs[p].IssueInsert? {
      forall i | 0 <= i < |s.db.log| && s.db.log[i].Inserted? ensures s.db.log[i].pid != p {
        assert StageOk(s, s.db.log[i]);
      }
    }
    OwnOk(s.db, p, s.procs[p], draw);
  }

  /** The actions that no request takes: they store, draw and consume nothing. */
  predicate Outside(a: Action) {
    !a.Step? && !a.Fail?
  }

  lemma OtherKeepsTable(s: State, a: Action)
    requires Inv(s) && Outside(a)
    ensures TableOk(Apply(s, a).db) && OneUnconsumed(Apply(s, a).db) && Grows(s.db, Apply(s, a).db)
  {
    match a
    case Erase(u) => EraseKeepsTable(s, u);
    case Register(u, password) => RegisterKeepsTable(s, u, password);
    case _ => SameTable(s.db, Apply(s, a).db);
  }

  lemma EraseKeepsTable(s: State, u: UserId)
    requires TableOk(s.db) && OneUnconsumed(s.db)
    ensures var db' := Apply(s, Erase(u)).db; TableOk(db') && OneUnconsumed(db') && Grows(s.db, db')
  {
    var db' := Apply(s, Erase(u)).db;
    assert forall t | t in db'.tokens :: t in s.db.tokens && db'.tokens[t] == s.db.tokens[t] && db'.tokens[t].user != u;
  }

  lemma RegisterKeepsTable(s: State, u: UserId, password: string)
    requires TableOk(s.db) && OneUnconsumed(s.db)
    ensures var db' := Apply(s, Register(u, password)).db; TableOk(db') && OneUnconsumed(db') && Grows(s.db, db')
  {
  }

  lemma SameTable(db: Db, db': Db)
    requires TableOk(db) && OneUnconsumed(db)
    requires db'.tokens == db.tokens && db'.issued == db.issued && db'.birth == db.birth && db'.used == db.used
    requires db'.passwords == db.passwords && db.now <= db'.now && db.presented <= db'.presented && db.log <= db'.log
    ensures TableOk(db') && OneUnconsumed(db') && Grows(db, db')
  {
  }

  lemma OtherKeepsEvents(s: State, a: Action)
    requires Inv(s) && Outside(a) && Grows(s.db, Apply(s, a).db)
    ensures BirthsOk(Apply(s, a).db) && LogOk(Apply(s, a).db)
  {
    var s' := Apply(s, a);
    assert forall i | 0 <= i < |s.db.log| :: s'.db.log[i] == s.db.log[i];
    forall t ensures BirthOk(s'.db, t) && UseOk(s'.db, t) {
      assert BirthOk(s.db, t) && UseOk(s.db, t);
    }
    forall i | 0 <= i < |s'.db.log| ensures EventOk(s'.db, i) {
      if i < |s.db.log| { EventStays(s.db, s'.db, i); }
    }
  }

  lemma OtherKeepsLast(s: State, a: Action)
    requires Inv(s) && Outside(a) && TableOk(Apply(s, a).db)
    ensures LastInsertWins(Apply(s, a).db)
  {
    var s' := Apply(s, a);
    OthersAreQuiet(s, a);
    forall t, i | Open(s'.db, t) && InsertedAt(s'.db.log, i, s'.db.tokens[t].user)
      ensures i <= s'.db.birth[t].at
    {
      OtherLog(s, a, i, s'.db.tokens[t].user);
      assert Open(s.db, t);
    }
  }

  /** Nothing was drawn or stored; rows may have gone, the clock may have moved. */
  ghost predicate Quiet(db: Db, db': Db) {
    && db'.issued == db.issued && db'.birth == db.birth && db.presented <= db'.presented
    && db.now <= db'.now && db.log <= db'.log
    && (forall t | t in db'.tokens :: t in db.tokens && db'.tokens[t] == db.tokens[t])
  }

  lemma QuietProc(db: Db, db': Db, q: Pid, h: Handler)
    requires TableOk(db) && TableOk(db') && Quiet(db, db') && ProcOk(db, q, h)
    ensures ProcOk(db', q, h)
  {
    assert forall i | 0 <= i < |db.log| :: db'.log[i] == db.log[i];
    match h
    case IssueDelete(c) => CallStays(db, db', q, c);
    case IssueName(c, _) => CallStays(db, db', q, c);
    case IssueStamp(c, _, _) => CallStays(db, db', q, c);
    case IssueInsert(c, _, _, _) => CallStays(db, db', q, c);
    case IssueReturn(r) => if r.Contention? { CallStays(db, db', q, r.call); }
    case Finished(r) => if r.Contention? { CallStays(db, db', q, r.call); }
    case _ =>
  }

  lemma OtherKeepsProcs(s: State, a: Action)
    requires Inv(s) && Outside(a) && TableOk(Apply(s, a).db)
    ensures ProcsOk(Apply(s, a))
  {
    var s' := Apply(s, a);
    OthersAreQuiet(s, a);
    forall q | q in s'.procs
      ensures ProcOk(s'.db, q, s'.procs[q])
    {
      if q in s.procs { QuietProc(s.db, s'.db, q, s.procs[q]); } else { NewProcOk(s, a, q); }
    }
  }

  lemma OthersAreQuiet(s: State, a: Action)
    requires Outside(a)
    ensures Quiet(s.db, Apply(s, a).db) && forall q | q in s.procs ::
        q in Apply(s, a).procs && Apply(s, a).procs[q] == s.procs[q]
  {
  }

  lemma NewProcOk(s: State, a: Action, q: Pid)
    requires Inv(s) && Outside(a) && TableOk(Apply(s, a).db) && q in Apply(s, a).procs && q !in s.procs
    ensures ProcOk(Apply(s, a).db, q, Apply(s, a).procs[q])
  {
  }

  lemma OtherKeepsHistory(s: State, a: Action)
    requires Inv(s) && Outside(a)
    ensures var s' := Apply(s, a);
      StagesOk(s') && ReturnsLast(s')
  {
    var s' := Apply(s, a);
    var n := |s.db.log|;
    forall i | 0 <= i < |s'.db.log|
      ensures StageOk(s', s'.db.log[i])
      ensures s'.db.log[i].Ended? ==> ReturnedAfterBlocks(s', s'.db.log[i].pid, i)
    {
      if i < n {
        assert s'.db.log[i] == s.db.log[i] && StageOk(s, s.db.log[i]);
        assert s.db.log[i].Ended? ==> ReturnedAfterBlocks(s, s.db.log[i].pid, i);
      }
    }
  }

  lemma OtherKeepsOnce(s: State, a: Action)
    requires Inv(s) && Outside(a)
    ensures var log' := Apply(s, a).db.log;
      OncePerRequest(log') && OneCall(log') && NothingAfterEnd(log')
  {
    var s' := Apply(s, a);
    forall i, j | 0 <= i < j < |s'.db.log|
      ensures Excludes(s'.db.log[i], s'.db.log[j]) ==> s'.db.log[i].pid != s'.db.log[j].pid
      ensures s'.db.log[i].Began? && s'.db.log[j].Began? ==> s'.db.log[i].pid != s'.db.log[j].pid
      ensures forall q | s'.db.log[i] == Ended(q) :: !ByRequest(s'.db.log[j], q)
    {
      assert s'.db.log[i] == s.db.log[i] && StageOk(s, s.db.log[i]);
      if j < |s.db.log| { assert s'.db.log[j] == s.db.log[j]; }
    }
  }

  lemma OtherKeepsLive(s: State, a: Action)
    requires Inv(s) && Outside(a)
    ensures LiveOk(Apply(s, a).db)
  {
    var s' := Apply(s, a);
    forall i, u | InsertedAt(s'.db.log, i, u) && CalmSince(s'.db.log, i, u)
      ensures Unconsumed(s'.db, s'.db.log[i].token, u)
    {
      OtherLog(s, a, i, u);
      OtherKeepsRow(s, a, u, s.db.log[i].token);
    }
    forall t | Open(s'.db, t)
      ensures t in s'.db.birth && CalmSince(s'.db.log, s'.db.birth[t].at, s'.db.tokens[t].user)
    {
      OtherKeepsCalm(s, a, t);
    }
  }

  lemma OtherKeepsCalm(s: State, a: Action, t: Token)
    requires Inv(s) && Outside(a) && Open(Apply(s, a).db, t)
    ensures var db' := Apply(s, a).db; t in db'.birth && CalmSince(db'.log, db'.birth[t].at, db'.tokens[t].user)
  {
    OthersAreQuiet(s, a);
    assert Open(s.db, t) && BirthOk(s.db, t);
    if a.Erase? { EraseRemoves(s, a, t); }
    OtherLog(s, a, s.db.birth[t].at, s.db.tokens[t].user);
  }

  lemma EraseRemoves(s: State, a: Action, t: Token)
    requires Open(Apply(s, a).db, t) && a.Erase?
    ensures Apply(s, a).db.tokens[t].user != a.user
  {
  }

  /** What the other actions log is no insert, and disturbs only a user they erase. */
  lemma OtherLog(s: State, a: Action, i: int, u: UserId)
    requires Outside(a) && 0 <= i < |Apply(s, a).db.log|
    ensures s.db.log <= Apply(s, a).db.log
    ensures InsertedAt(Apply(s, a).db.log, i, u) <==> InsertedAt(s.db.log, i, u)
    ensures DeletedFor(Apply(s, a).db.log[i], u) ==> i < |s.db.log|
    ensures i < |s.db.log| ==>
        (CalmSince(Apply(s, a).db.log, i, u) <==> CalmSince(s.db.log, i, u) && a != Erase(u))
    ensures i < |s.db.log| ==> (NoInsertSince(Apply(s, a).db.log, i, u) <==> NoInsertSince(s.db.log, i, u))
  {
    var log' := Apply(s, a).db.log;
    if log' != s.db.log {
      var e := log'[|s.db.log|];
      assert log' == s.db.log + [e] && (e.Began? || e.Erased?);
      assert Disturbs(e, u) <==> a == Erase(u);
      if i < |s.db.log| {
        CalmBefore(s.db.log, e, i, u);
        InsertBefore(s.db.log, e, i, u);
      }
    } else {
      assert a != Erase(u);
    }
  }

  lemma OtherKeepsRow(s: State, a: Action, u: UserId, t: Token)
    requires Outside(a) && a != Erase(u) && Unconsumed(s.db, t, u)
    ensures Unconsumed(Apply(s, a).db, t, u)
  {
  }

  lemma OtherKeepsDeletes(s: State, a: Action)
    requires Inv(s) && Outside(a)
    ensures DeletesOk(Apply(s, a))
  {
    var s' := Apply(s, a);
    OthersAreQuiet(s, a);
    forall d, u | LastDelete(s'.db.log, d, u) && NoInsertSince(s'.db.log, d, u)
      ensures OnItsWay(s', s'.db.log[d].pid, u)
    {
      OtherLog(s, a, d, u);
      assert s'.db.log[d] == s.db.log[d];
      assert LastDelete(s.db.log, d, u);
      assert OnItsWay(s, s.db.log[d].pid, u);
    }
  }

  /** A failing statement only ends its request. */
  lemma FailKeeps(s: State, p: Pid)
    requires Inv(s) && p in s.procs
    ensures Inv(Apply(s, Fail(p)))
  {
    var s' := Apply(s, Fail(p));
    forall q | q in s'.procs ensures ProcOk(s'.db, q, s'.procs[q]) {
      assert ProcOk(s.db, q, s.procs[q]);
    }
    forall i | 0 <= i < |s'.db.log|
      ensures StageOk(s', s'.db.log[i])
      ensures s'.db.log[i].Ended? ==> ReturnedAfterBlocks(s', s'.db.log[i].pid, i)
    {
      FailKeepsStage(s, p, s.db.log[i]);
      if s.db.log[i].Ended? { assert ReturnedAfterBlocks(s, s.db.log[i].pid, i); }
    }
    forall d, u | LastDelete(s'.db.log, d, u) && NoInsertSince(s'.db.log, d, u)
      ensures OnItsWay(s', s'.db.log[d].pid, u)
    {
      FailKeepsDelete(s, p, d, u);
    }
  }

  lemma FailKeepsStage(s: State, p: Pid, e: Event)
    requires StagesOk(s) && e in s.db.log && p in s.procs
    ensures StageOk(Apply(s, Fail(p)), e)
  {
    var i :| 0 <= i < |s.db.log| && s.db.log[i] == e;
    assert StageOk(s, s.db.log[i]);
  }

  lemma FailKeepsDelete(s: State, p: Pid, d: int, u: UserId)
    requires DeletesOk(s) && p in s.procs && LastDelete(s.db.log, d, u) && NoInsertSince(s.db.log, d, u)
    ensures OnItsWay(Apply(s, Fail(p)), s.db.log[d].pid, u)
  {
    assert OnItsWay(s, s.db.log[d].pid, u);
  }

  lemma ApplyKeeps(s: State, a: Action)
    requires Inv(s)
    ensures Inv(Apply(s, a))
  {
    if a.Step? {
      if a.pid in s.procs && !s.procs[a.pid].Finished? { AdvanceKeeps(s, a.pid, a.draw); }
    } else if a.Fail? {
      if a.pid in s.procs { FailKeeps(s, a.pid); }
    } else {
      OtherKeepsTable(s, a);
      OtherKeepsEvents(s, a);
      OtherKeepsLast(s, a);
      OtherKeepsProcs(s, a);
      OtherKeepsHistory(s, a);
      OtherKeepsOnce(s, a);
      OtherKeepsLive(s, a);
      OtherKeepsDeletes(s, a);
    }
  }

  lemma ApplyGrows(s: State, a: Action)
    requires Inv(s)
    ensures Grows(s.db, Apply(s, a).db)
  {
    if a.Step? {
      if a.pid in s.procs && !s.procs[a.pid].Finished? {
        NextOk(s.db, a.pid, s.procs[a.pid], a.draw);
        ExecGrows(s.db, a.pid, Next(s.procs[a.pid], a.draw));
      }
    } else if !a.Fail? {
      OtherKeepsTable(s, a);
    }
  }

  lemma GrowsTransitive(a: Db, b: Db, c: Db)
    requires TableOk(b) && Grows(a, b) && Grows(b, c)
    ensures Grows(a, c)
  {
  }

  /** The invariant holds after every schedule, and history only grows. */
  lemma {:induction false} RunKeeps(s: State, schedule: seq<Action>)
    requires Inv(s)
    ensures Inv(Run(s, schedule)) && Grows(s.db, Run(s, schedule).db)
    decreases |schedule|
  {
    if schedule != [] {
      var s' := Apply(s, schedule[0]);
      ApplyKeeps(s, schedule[0]);
      ApplyGrows(s, schedule[0]);
      RunKeeps(s', schedule[1..]);
      GrowsTransitive(s.db, s'.db, Run(s, schedule).db);
    }
  }

  lemma FreshOk(s: State)
    requires Fresh(s)
    ensures Inv(s)
  {
  }
}
