/** The reset machine statement by statement: what one action makes of each
    password and each token row, where each stored password and each expiry comes
    from in any run, what the answers mean, and what a whole call comes to when
    nothing runs in between. */
module ResetSteps {
  import opened Ids
  import opened ResetDb
  import opened ResetInvariant
  import opened ResetTheorems

  // ---- one action, one row ---------------------------------------------------------------

  /** p's password write for v is next. */
  ghost predicate WritesFor(s: State, a: Action, v: UserId) {
    a.Step? && a.pid in s.procs && s.procs[a.pid].ConfirmWrite? && s.procs[a.pid].user == v
  }

  /** A reset changes its owner's password, to the one its request carries, and
      nobody else's; registration and erasure are the only other actions that
      touch passwords. */
  lemma PasswordStep(s: State, a: Action, v: UserId)
    ensures var passwords' := Apply(s, a).db.passwords;
      if v !in s.db.passwords then
        && (v in passwords' <==> a.Register? && a.user == v)
        && (v in passwords' ==> passwords'[v] == a.password)
      else
        && (v in passwords' <==> a != Erase(v))
        && (v in passwords' ==>
              passwords'[v] == if WritesFor(s, a, v) then s.procs[a.pid].password else s.db.passwords[v])
    ensures WritesFor(s, a, v) && v in s.db.passwords ==>
      var h := s.procs[a.pid];
      Apply(s, a).db.log == s.db.log + [PasswordSet(a.pid, v, h.token, h.consumed)]
  {
    if a.Step? && a.pid in s.procs && !s.procs[a.pid].Finished? {
      StatementPassword(s.db, a.pid, Next(s.procs[a.pid], a.draw), v);
    }
  }

  lemma StatementPassword(db: Db, p: Pid, stmt: Stmt, v: UserId)
    ensures var db' := Exec(db, p, stmt).0; var writes := stmt.SetPassword? && stmt.user == v && v in db.passwords;
      && (v in db'.passwords <==> v in db.passwords)
      && (v in db.passwords ==> db'.passwords[v] == if writes then stmt.password else db.passwords[v])
      && (writes ==> db'.log == db.log + [PasswordSet(p, v, stmt.token, stmt.consumed)])
  {
  }

  /** The action deletes all tokens of u. */
  ghost predicate Supersedes(s: State, a: Action, u: UserId) {
    a == Erase(u) || (a.Step? && a.pid in s.procs && s.procs[a.pid].IssueDelete? && s.procs[a.pid].call.user == u)
  }

  /** The action consumes t: a confirm of it, while it is stored, unconsumed and not expired. */
  ghost predicate Consumes(s: State, a: Action, t: Token) {
    && a.Step? && a.pid in s.procs && s.procs[a.pid].ConfirmConsume? && s.procs[a.pid].token == t
    && t in s.db.tokens && !s.db.tokens[t].consumed && s.db.now < s.db.tokens[t].expires
  }

  /** u has an unconsumed token. */
  ghost predicate HasOpen(db: Db, u: UserId) {
    exists t :: t in db.tokens && db.tokens[t].user == u && !db.tokens[t].consumed
  }

  /** The action stores t: the INSERT of a call for a registered user without an
      unconsumed token. */
  ghost predicate Stores(s: State, a: Action, t: Token) {
    && a.Step? && a.pid in s.procs && s.procs[a.pid].IssueInsert? && s.procs[a.pid].token == t
    && t !in s.db.tokens && s.procs[a.pid].call.user in s.db.passwords && !HasOpen(s.db, s.procs[a.pid].call.user)
  }

  lemma OpenBlocks(db: Db, u: UserId)
    ensures HasOpen(db, u) <==> Blockers(db, u) != {}
  {
    if t :| t in db.tokens && db.tokens[t].user == u && !db.tokens[t].consumed { assert t in Blockers(db, u); }
    if Blockers(db, u) != {} {
      var t :| t in Blockers(db, u);
      assert t in db.tokens && db.tokens[t].user == u && !db.tokens[t].consumed;
    }
  }

  /** A token row goes only with all its user's, is consumed only by a confirm in
      time, comes only by an INSERT, and otherwise stays as it is. */
  lemma TokenStep(s: State, a: Action, t: Token)
    ensures var tokens' := Apply(s, a).db.tokens;
      if t in s.db.tokens then
        && (t !in tokens' <==> Supersedes(s, a, s.db.tokens[t].user))
        && (t in tokens' ==>
              tokens'[t] == if Consumes(s, a, t) then s.db.tokens[t].(consumed := true) else s.db.tokens[t])
      else
        && (t in tokens' <==> Stores(s, a, t))
        && (t in tokens' ==> tokens'[t] == TokenRow(s.procs[a.pid].call.user, s.procs[a.pid].expires, false))
  {
    if a.Step? && a.pid in s.procs && s.procs[a.pid].IssueInsert? { OpenBlocks(s.db, s.procs[a.pid].call.user); }
  }

  /** Where the INSERT of an attempt leads: back to the DELETE, up to twice. */
  ghost predicate AfterInsert(s: State, h: Handler, h': Handler)
    requires h.IssueInsert?
  {
    var c := h.call;
    if c.user !in s.db.passwords || h.token in s.db.tokens then h' == IssueReturn(Failure)
    else if !HasOpen(s.db, c.user) then h' == IssueReturn(Issued(h.token))
    else
      exists t | t in s.db.tokens && s.db.tokens[t].user == c.user && !s.db.tokens[t].consumed && t in s.db.birth ::
        h' == if |c.blocks| < 2 then IssueDelete(c.(blocks := c.blocks + [s.db.birth[t].at]))
              else IssueReturn(Contention(c.(blocks := c.blocks + [s.db.birth[t].at])))
  }

  ghost predicate Goes(s: State, p: Pid, draw: Token, h': Handler)
    requires p in s.procs
  {
    match s.procs[p]
    case IssueDelete(c) => h' == IssueName(c, |s.db.log|)
    case IssueName(c, since) =>
      h' == if draw in s.db.issued || draw in s.db.presented then s.procs[p] else IssueStamp(c, since, draw)
    case IssueStamp(c, since, t) => h' == IssueInsert(c, since, t, s.db.now + 600)
    case IssueInsert(_, _, _, _) => AfterInsert(s, s.procs[p], h')
    case IssueReturn(r) => h' == Finished(r)
    case ConfirmConsume(t, password) =>
      h' == if Consumes(s, Step(p, draw), t) then ConfirmWrite(t, s.db.tokens[t].user, password, |s.db.log|)
            else ConfirmClassify(t)
    case ConfirmWrite(_, _, _, _) => h' == Finished(ResetDone)
    case ConfirmClassify(t) =>
      h' == Finished(Rejected(if t !in s.db.tokens then Invalid else if s.db.tokens[t].consumed then Used else Expired))
    case Finished(_) => h' == s.procs[p]
  }

  /** Where one statement takes the request that runs it. */
  lemma RequestStep(s: State, p: Pid, draw: Token)
    requires TableOk(s.db) && p in s.procs
    ensures var s' := Apply(s, Step(p, draw));
      p in s'.procs && s'.procs == s.procs[p := s'.procs[p]] && Goes(s, p, draw, s'.procs[p])
  {
    if s.procs[p].IssueInsert? { InsertStep(s, p, draw); }
    if s.procs[p].Finished? { assert s.procs[p := s.procs[p]] == s.procs; }
  }

  lemma InsertStep(s: State, p: Pid, draw: Token)
    requires TableOk(s.db) && p in s.procs && s.procs[p].IssueInsert?
    ensures var s' := Apply(s, Step(p, draw));
      p in s'.procs && s'.procs == s.procs[p := s'.procs[p]] && AfterInsert(s, s.procs[p], s'.procs[p])
  {
    OpenBlocks(s.db, s.procs[p].call.user);
  }

  /** The clock only goes forward. A call for a registered user begins with its
      DELETE ahead and no block yet, for anybody else nothing happens. A confirm may
      come with any token that is stored or was never drawn. */
  lemma ArrivalStep(s: State, a: Action)
    requires a.Tick? || a.ArriveIssue? || a.ArriveConfirm?
    ensures var s' := Apply(s, a);
      match a
      case Tick(t) => s' == State(s.db.(now := if s.db.now <= t then t else s.db.now), s.procs)
      case ArriveIssue(p, u) =>
        if p in s.procs || u !in s.db.passwords then s' == s
        else
          && s'.procs == s.procs[p := IssueDelete(Call(u, |s.db.log|, []))]
          && s'.db == s.db.(log := s.db.log + [Began(p, u)])
      case ArriveConfirm(p, t, password) =>
        if p in s.procs || (t in s.db.issued && t !in s.db.birth) then s' == s
        else
          && s'.procs == s.procs[p := ConfirmConsume(t, password)]
          && s'.db == s.db.(presented := s.db.presented + {t})
  {
  }

  /** A failure changes no table; a reset request that fails ends with an error. */
  lemma FailStep(s: State, p: Pid)
    requires p in s.procs
    ensures var s' := Apply(s, Fail(p));
      && s'.db == s.db
      && s'.procs == s.procs[p := match s.procs[p]
           case Finished(r) => Finished(r)
           case IssueReturn(r) => IssueReturn(r)
           case ConfirmConsume(_, _) => Finished(Failure)
           case ConfirmWrite(_, _, _, _) => Finished(Failure)
           case ConfirmClassify(_) => Finished(Failure)
           case _ => IssueReturn(Failure)]
  {
  }

  // ---- where a stored password comes from ------------------------------------------------

  /** The k-th action gave v this password: v's registration, or a write for v. */
  ghost predicate WroteAt(init: State, schedule: seq<Action>, k: int, v: UserId, password: string) {
    0 <= k < |schedule|
    && var s := Run(init, schedule[..k]);
    || (schedule[k] == Register(v, password) && v !in s.db.passwords)
    || (WritesFor(s, schedule[k], v) && v in s.db.passwords && s.procs[schedule[k].pid].password == password)
  }

  /** It is the password the account had from the start, and nobody has written since. */
  ghost predicate Original(init: State, schedule: seq<Action>, v: UserId, password: string) {
    && v in init.db.passwords && init.db.passwords[v] == password
    && forall k, other :: !WroteAt(init, schedule, k, v, other)
  }

  ghost predicate LastWrote(init: State, schedule: seq<Action>, k: int, v: UserId, password: string) {
    WroteAt(init, schedule, k, v, password) && forall j, other | k < j :: !WroteAt(init, schedule, j, v, other)
  }

  lemma {:induction false} RunSnoc(s: State, schedule: seq<Action>, a: Action)
    ensures Run(s, schedule + [a]) == Apply(Run(s, schedule), a)
    decreases |schedule|
  {
    if schedule == [] {
      assert [a][1..] == [];
    } else {
      assert (schedule + [a])[1..] == schedule[1..] + [a];
      RunSnoc(Apply(s, schedule[0]), schedule[1..], a);
    }
  }

  lemma WroteBefore(init: State, before: seq<Action>, a: Action, k: int, v: UserId, password: string)
    ensures k < |before| ==>
      (WroteAt(init, before + [a], k, v, password) <==> WroteAt(init, before, k, v, password))
  {
    if 0 <= k < |before| { assert (before + [a])[..k] == before[..k] && (before + [a])[k] == before[k]; }
  }

  /** One more action. */
  lemma PasswordNext(init: State, before: seq<Action>, a: Action, v: UserId)
    requires var s := Run(init, before); v in s.db.passwords ==>
      Original(init, before, v, s.db.passwords[v]) || exists k :: LastWrote(init, before, k, v, s.db.passwords[v])
    requires v in Apply(Run(init, before), a).db.passwords
    ensures var password := Apply(Run(init, before), a).db.passwords[v];
      Original(init, before + [a], v, password) || exists k :: LastWrote(init, before + [a], k, v, password)
  {
    var s := Run(init, before);
    var schedule, n := before + [a], |before|;
    assert schedule[..n] == before && schedule[n] == a;
    PasswordStep(s, a, v);
    var password := Apply(s, a).db.passwords[v];
    forall k, other ensures k < n ==> (WroteAt(init, schedule, k, v, other) <==> WroteAt(init, before, k, v, other)) {
      WroteBefore(init, before, a, k, v, other);
    }
    if WroteAt(init, schedule, n, v, password) {
      assert LastWrote(init, schedule, n, v, password);
    } else {
      assert forall other :: !WroteAt(init, schedule, n, v, other);
      if !Original(init, before, v, password) {
        var k :| LastWrote(init, before, k, v, password);
        assert LastWrote(init, schedule, k, v, password);
      }
    }
  }

  lemma {:induction false} StoredPassword(init: State, schedule: seq<Action>, v: UserId)
    requires v in Run(init, schedule).db.passwords
    ensures var password := Run(init, schedule).db.passwords[v];
      Original(init, schedule, v, password) || exists k :: LastWrote(init, schedule, k, v, password)
    decreases |schedule|
  {
    if schedule != [] {
      var before, a := schedule[..|schedule| - 1], schedule[|schedule| - 1];
      assert schedule == before + [a];
      RunSnoc(init, before, a);
      if v in Run(init, before).db.passwords { StoredPassword(init, before, v); }
      PasswordNext(init, before, a, v);
    }
  }

  /** The request carries a password it arrived with. */
  ghost predicate Carried(schedule: seq<Action>, p: Pid, h: Handler) {
    h.ConfirmConsume? || h.ConfirmWrite? ==> ArriveConfirm(p, h.token, h.password) in schedule
  }

  lemma {:induction false} RequestsCarry(init: State, schedule: seq<Action>, p: Pid)
    requires init.procs == map[] && p in Run(init, schedule).procs
    ensures Carried(schedule, p, Run(init, schedule).procs[p])
    decreases |schedule|
  {
    if schedule != [] {
      var before, a := schedule[..|schedule| - 1], schedule[|schedule| - 1];
      assert schedule == before + [a];
      RunSnoc(init, before, a);
      if p in Run(init, before).procs { RequestsCarry(init, before, p); }
      CarriedNext(Run(init, before), a, before, p);
    }
  }

  lemma CarriedNext(s: State, a: Action, before: seq<Action>, p: Pid)
    requires p in s.procs ==> Carried(before, p, s.procs[p])
    requires p in Apply(s, a).procs
    ensures Carried(before + [a], p, Apply(s, a).procs[p])
  {
    if a.ArriveConfirm? && a.pid == p { assert (before + [a])[|before|] == a; }
    else { assert forall b | b in before :: b in before + [a]; }
  }

  /** The password stored for v in any run is the one the account started with, or
      the one it was registered with, or the one that some request arrived with,
      together with a token issued to v that this request consumed; and nothing
      has been written for v since. */
  lemma EveryPasswordAccountedFor(init: State, schedule: seq<Action>, v: UserId)
    requires Fresh(init) && v in Run(init, schedule).db.passwords
    ensures var password := Run(init, schedule).db.passwords[v];
      || Original(init, schedule, v, password)
      || exists k :: LastWrote(init, schedule, k, v, password)
           && (schedule[k] == Register(v, password) || ChosenBy(init, schedule, k, v, password))
  {
    StoredPassword(init, schedule, v);
    var password := Run(init, schedule).db.passwords[v];
    if !Original(init, schedule, v, password) {
      var k :| LastWrote(init, schedule, k, v, password);
      var s := Run(init, schedule[..k]);
      if schedule[k] != Register(v, password) {
        var p := schedule[k].pid;
        RequestsCarry(init, schedule[..k], p);
        FreshOk(init);
        RunKeeps(init, schedule[..k]);
        assert ProcOk(s.db, p, s.procs[p]);
        assert EventOk(s.db, s.procs[p].consumed) && UseOk(s.db, s.procs[p].token);
        assert ChosenBy(init, schedule, k, v, password);
      }
    }
  }

  /** Before the k-th action, the request that takes it arrived with this password
      and with a token issued to v, and consumed that token. */
  ghost predicate ChosenBy(init: State, schedule: seq<Action>, k: int, v: UserId, password: string) {
    0 <= k < |schedule| && schedule[k].Step?
    && var db, p := Run(init, schedule[..k]).db, schedule[k].pid;
    exists t, i :: ArriveConfirm(p, t, password) in schedule[..k]
      && t in db.birth && db.birth[t].user == v && ConsumedAt(db.log, i, v, t) && db.log[i].pid == p
  }

  // ---- where an expiry comes from --------------------------------------------------------

  /** The k-th action was p's clock reading for token t, ten minutes before `expires`. */
  ghost predicate StampedAt(init: State, schedule: seq<Action>, k: int, p: Pid, t: Token, expires: Time) {
    0 <= k < |schedule| && schedule[k].Step? && schedule[k].pid == p
    && var s := Run(init, schedule[..k]);
    p in s.procs && s.procs[p].IssueStamp? && s.procs[p].token == t && expires == s.db.now + 600
  }

  ghost predicate Stamped(init: State, schedule: seq<Action>, p: Pid, t: Token, expires: Time) {
    exists k :: StampedAt(init, schedule, k, p, t, expires)
  }

  lemma StampedStays(init: State, before: seq<Action>, a: Action, p: Pid, t: Token, expires: Time)
    requires Stamped(init, before, p, t, expires)
    ensures Stamped(init, before + [a], p, t, expires)
  {
    var k :| StampedAt(init, before, k, p, t, expires);
    assert (before + [a])[..k] == before[..k] && (before + [a])[k] == before[k];
    assert StampedAt(init, before + [a], k, p, t, expires);
  }

  ghost predicate AllStamped(init: State, schedule: seq<Action>) {
    var s := Run(init, schedule);
    && (forall p | p in s.procs && s.procs[p].IssueInsert? ::
          Stamped(init, schedule, p, s.procs[p].token, s.procs[p].expires))
    && (forall t | t in s.db.birth :: Stamped(init, schedule, s.db.birth[t].pid, t, s.db.birth[t].expires))
  }

  /** One action's new inserts and births. */
  lemma StampsComeFrom(s: State, a: Action, p: Pid)
    requires p in Apply(s, a).procs && Apply(s, a).procs[p].IssueInsert?
    ensures p in s.procs
    ensures var h, h' := s.procs[p], Apply(s, a).procs[p];
      h == h' || (a.Step? && a.pid == p && h.IssueStamp? && h.token == h'.token && h'.expires == s.db.now + 600)
  {
  }

  lemma BirthsComeFrom(s: State, a: Action, t: Token)
    requires t in Apply(s, a).db.birth
    ensures var b := Apply(s, a).db.birth[t];
      || (t in s.db.birth && s.db.birth[t] == b)
      || (b.pid in s.procs && s.procs[b.pid].IssueInsert? && s.procs[b.pid].token == t
            && s.procs[b.pid].expires == b.expires)
  {
  }

  lemma StampedNext(init: State, before: seq<Action>, a: Action)
    requires AllStamped(init, before)
    ensures AllStamped(init, before + [a])
  {
    RunSnoc(init, before, a);
    var schedule, s, s' := before + [a], Run(init, before), Apply(Run(init, before), a);
    assert schedule[..|before|] == before && schedule[|before|] == a;
    forall p | p in s'.procs && s'.procs[p].IssueInsert?
      ensures Stamped(init, schedule, p, s'.procs[p].token, s'.procs[p].expires)
    {
      StampsComeFrom(s, a, p);
      if s.procs[p] == s'.procs[p] {
        StampedStays(init, before, a, p, s'.procs[p].token, s'.procs[p].expires);
      } else {
        assert StampedAt(init, schedule, |before|, p, s'.procs[p].token, s'.procs[p].expires);
      }
    }
    forall t | t in s'.db.birth ensures Stamped(init, schedule, s'.db.birth[t].pid, t, s'.db.birth[t].expires) {
      BirthsComeFrom(s, a, t);
      StampedStays(init, before, a, s'.db.birth[t].pid, t, s'.db.birth[t].expires);
    }
  }

  lemma {:induction false} EverythingStamped(init: State, schedule: seq<Action>)
    requires init.procs == map[] && init.db.birth == map[]
    ensures AllStamped(init, schedule)
    decreases |schedule|
  {
    if schedule != [] {
      var before, a := schedule[..|schedule| - 1], schedule[|schedule| - 1];
      assert schedule == before + [a];
      EverythingStamped(init, before);
      StampedNext(init, before, a);
    }
  }

  /** In every run a stored token expires ten minutes after the clock was read for
      it by the call that inserted it, before its INSERT. */
  lemma TenMinutes(init: State, schedule: seq<Action>, t: Token)
    requires Fresh(init) && t in Run(init, schedule).db.tokens
    ensures var db := Run(init, schedule).db;
      t in db.birth && Stamped(init, schedule, db.birth[t].pid, t, db.tokens[t].expires)
  {
    FreshOk(init);
    RunKeeps(init, schedule);
    EverythingStamped(init, schedule);
  }

  // ---- what the answers mean -------------------------------------------------------------

  ghost predicate ErasedAfter(log: seq<Event>, k: int, u: UserId) {
    exists i :: k < i < |log| && 0 <= i && log[i] == Erased(u)
  }

  ghost predicate SetAfter(log: seq<Event>, k: nat, p: Pid, u: UserId, t: Token) {
    exists i :: k < i < |log| && 0 <= i && log[i] == PasswordSet(p, u, t, k)
  }

  /** Request p consumed a token, and then set its owner's password, unless the
      owner was erased in between. */
  ghost predicate DidReset(log: seq<Event>, p: Pid, k: int) {
    0 <= k < |log| && log[k].Consumed? && log[k].pid == p
    && (SetAfter(log, k, p, log[k].user, log[k].token) || ErasedAfter(log, k, log[k].user))
  }

  ghost predicate DidAnswer(log: seq<Event>, p: Pid, r: Refusal) {
    exists i :: 0 <= i < |log| && log[i].Answered? && log[i].pid == p && log[i].refusal == r
  }

  ghost predicate Truthful(db: Db, p: Pid, h: Handler) {
    match h
    case IssueReturn(r) => r.Issued? || r.Contention? || r.Failure?
    case ConfirmWrite(t, u, _, k) => ConsumedAt(db.log, k, u, t) && (u in db.passwords || ErasedAfter(db.log, k, u))
    case Finished(ResetDone) => exists k :: DidReset(db.log, p, k)
    case Finished(Rejected(r)) => DidAnswer(db.log, p, r)
    case _ => true
  }

  ghost predicate AllTruthful(s: State) {
    forall p | p in s.procs :: Truthful(s.db, p, s.procs[p])
  }

  lemma TruthfulStays(db: Db, db': Db, p: Pid, h: Handler)
    requires Truthful(db, p, h) && db.log <= db'.log
    requires forall u | u in db.passwords :: u in db'.passwords || ErasedAfter(db'.log, |db.log| - 1, u)
    ensures Truthful(db', p, h)
  {
    assert forall i | 0 <= i < |db.log| :: db'.log[i] == db.log[i];
    if h == Finished(ResetDone) {
      var k :| DidReset(db.log, p, k);
      if SetAfter(db.log, k, p, db.log[k].user, db.log[k].token) {
        var i :| k < i < |db.log| && db.log[i] == PasswordSet(p, db.log[k].user, db.log[k].token, k);
        assert db'.log[i] == PasswordSet(p, db.log[k].user, db.log[k].token, k);
      } else {
        ErasedStays(db.log, db'.log, k, db.log[k].user);
      }
      assert DidReset(db'.log, p, k);
    }
    if h.ConfirmWrite? && ErasedAfter(db.log, h.consumed, h.user) {
      ErasedStays(db.log, db'.log, h.consumed, h.user);
    }
  }

  lemma ErasedStays(log: seq<Event>, log': seq<Event>, k: int, u: UserId)
    requires log <= log' && ErasedAfter(log, k, u)
    ensures ErasedAfter(log', k, u)
  {
    var i :| k < i < |log| && 0 <= i && log[i] == Erased(u);
    assert log'[i] == Erased(u);
  }

  lemma LogsGrow(s: State, a: Action)
    requires Inv(s)
    ensures s.db.log <= Apply(s, a).db.log
    ensures var db' := Apply(s, a).db;
      forall u | u in s.db.passwords :: u in db'.passwords || ErasedAfter(db'.log, |s.db.log| - 1, u)
  {
    ApplyGrows(s, a);
    forall u | u in s.db.passwords && u !in Apply(s, a).db.passwords
      ensures ErasedAfter(Apply(s, a).db.log, |s.db.log| - 1, u)
    {
      PasswordStep(s, a, u);
      assert Apply(s, a).db.log[|s.db.log|] == Erased(u);
    }
  }

  lemma WriteTruth(s: State, p: Pid, draw: Token)
    requires Inv(s) && p in s.procs && s.procs[p].ConfirmWrite? && Truthful(s.db, p, s.procs[p])
    ensures var s' := Apply(s, Step(p, draw));
      s'.procs[p] == Finished(ResetDone) && DidReset(s'.db.log, p, s.procs[p].consumed)
  {
    var h, s' := s.procs[p], Apply(s, Step(p, draw));
    assert ProcOk(s.db, p, h);
    PasswordStep(s, Step(p, draw), h.user);
    assert ConsumedAt(s'.db.log, h.consumed, h.user, h.token);
    if h.user in s.db.passwords {
      assert s'.db.log[|s.db.log|] == PasswordSet(p, h.user, h.token, h.consumed);
    } else {
      ErasedStays(s.db.log, s'.db.log, h.consumed, h.user);
    }
  }

  lemma IssueTruth(s: State, p: Pid, draw: Token)
    requires p in s.procs && Truthful(s.db, p, s.procs[p])
    requires var h := s.procs[p]; h.IssueDelete? || h.IssueName? || h.IssueStamp? || h.IssueInsert? || h.IssueReturn?
    ensures var s' := Apply(s, Step(p, draw)); Truthful(s'.db, p, s'.procs[p])
  {
  }

  lemma OwnTruth(s: State, p: Pid, draw: Token)
    requires Inv(s) && p in s.procs && Truthful(s.db, p, s.procs[p])
    ensures var s' := Apply(s, Step(p, draw)); Truthful(s'.db, p, s'.procs[p])
  {
    var h, s' := s.procs[p], Apply(s, Step(p, draw));
    if h.IssueDelete? || h.IssueName? || h.IssueStamp? || h.IssueInsert? || h.IssueReturn? {
      IssueTruth(s, p, draw);
    } else if h.ConfirmWrite? {
      WriteTruth(s, p, draw);
    } else if h.ConfirmClassify? {
      assert s'.db.log[|s.db.log|].Answered?;
    } else if h.ConfirmConsume? && s'.procs[p].ConfirmWrite? {
      assert ConsumedAt(s'.db.log, |s.db.log|, s'.procs[p].user, h.token);
    } else if h.Finished? {
      assert s' == s;
    }
  }

  lemma TruthNext(s: State, a: Action)
    requires Inv(s) && AllTruthful(s)
    ensures AllTruthful(Apply(s, a))
  {
    var s' := Apply(s, a);
    LogsGrow(s, a);
    forall p | p in s'.procs ensures Truthful(s'.db, p, s'.procs[p]) {
      if p in s.procs {
        assert Truthful(s.db, p, s.procs[p]);
        if a.Step? && a.pid == p { OwnTruth(s, p, a.draw); } else { TruthfulStays(s.db, s'.db, p, s.procs[p]); }
      }
    }
  }

  lemma {:induction false} TruthForever(init: State, schedule: seq<Action>)
    requires Inv(init) && AllTruthful(init)
    ensures AllTruthful(Run(init, schedule))
    decreases |schedule|
  {
    if schedule != [] {
      TruthNext(init, schedule[0]);
      ApplyKeeps(init, schedule[0]);
      TruthForever(Apply(init, schedule[0]), schedule[1..]);
    }
  }

  /** In every run, a confirm answered with success consumed a token and set its
      owner's password, unless the owner was erased in between; one answered with
      a refusal had it read from the table; and one answered with a token
      inserted it. */
  lemma AnswersAreTrue(s: State, p: Pid)
    requires Reachable(s) && p in s.procs && s.procs[p].Finished?
    ensures match s.procs[p].response
      case ResetDone => exists k :: DidReset(s.db.log, p, k)
      case Rejected(r) => DidAnswer(s.db.log, p, r)
      case Issued(t) => exists i, u :: InsertedAt(s.db.log, i, u) && s.db.log[i] == Inserted(p, u, t)
      case Contention(c) => |c.blocks| == 3
      case Failure => true
  {
    ReachableOk(s);
    var init, schedule :| Fresh(init) && s == Run(init, schedule);
    FreshOk(init);
    TruthForever(init, schedule);
    assert ProcOk(s.db, p, s.procs[p]);
    assert Truthful(s.db, p, s.procs[p]);
    if s.procs[p].response.Issued? { assert BirthOk(s.db, s.procs[p].response.token); }
  }

  // ---- nothing in between ------------------------------------------------------------------

  lemma RunTwo(s: State, a: Action, b: Action)
    ensures Run(s, [a, b]) == Apply(Apply(s, a), b)
  {
    assert [a, b][1..] == [b] && [b][1..] == [];
    assert Run(s, [a, b]) == Run(Apply(s, a), [b]);
  }

  /** A confirm with nothing in between: exactly that password and that token
      change, if the token is valid. */
  lemma ConfirmAlone(s: State, p: Pid, t: Token, password: string, draw: Token)
    requires TableOk(s.db) && p in s.procs && s.procs[p] == ConfirmConsume(t, password)
    ensures var s' := Run(s, [Step(p, draw), Step(p, draw)]);
      if t in s.db.tokens && !s.db.tokens[t].consumed && s.db.now < s.db.tokens[t].expires then
        && s'.procs == s.procs[p := Finished(ResetDone)]
        && s'.db.passwords == s.db.passwords[s.db.tokens[t].user := password]
        && s'.db.tokens == s.db.tokens[t := s.db.tokens[t].(consumed := true)]
      else
        && s'.procs == s.procs[p := Finished(Rejected(if t !in s.db.tokens then Invalid
             else if s.db.tokens[t].consumed then Used else Expired))]
        && s'.db.passwords == s.db.passwords && s'.db.tokens == s.db.tokens
  {
    RunTwo(s, Step(p, draw), Step(p, draw));
    if Consumes(s, Step(p, draw), t) {
      ConsumeAlone(s, p, t, password, draw);
      WriteAlone(Apply(s, Step(p, draw)), p, draw);
    } else {
      RefuseAlone(s, p, t, password, draw);
    }
  }

  lemma ConsumeAlone(s: State, p: Pid, t: Token, password: string, draw: Token)
    requires p in s.procs && s.procs[p] == ConfirmConsume(t, password) && Consumes(s, Step(p, draw), t)
    requires TableOk(s.db)
    ensures var s' := Apply(s, Step(p, draw)); var u := s.db.tokens[t].user;
      && u in s.db.passwords && s'.db.passwords == s.db.passwords
      && s'.procs == s.procs[p := ConfirmWrite(t, u, password, |s.db.log|)]
      && s'.db.tokens == s.db.tokens[t := s.db.tokens[t].(consumed := true)]
  {
  }

  lemma WriteAlone(s: State, p: Pid, draw: Token)
    requires p in s.procs && s.procs[p].ConfirmWrite? && s.procs[p].user in s.db.passwords
    ensures var s' := Apply(s, Step(p, draw));
      && s'.procs == s.procs[p := Finished(ResetDone)] && s'.db.tokens == s.db.tokens
      && s'.db.passwords == s.db.passwords[s.procs[p].user := s.procs[p].password]
  {
  }

  lemma RefuseAlone(s: State, p: Pid, t: Token, password: string, draw: Token)
    requires p in s.procs && s.procs[p] == ConfirmConsume(t, password) && !Consumes(s, Step(p, draw), t)
    ensures var s' := Apply(Apply(s, Step(p, draw)), Step(p, draw));
      && s'.procs == s.procs[p := Finished(Rejected(if t !in s.db.tokens then Invalid
           else if s.db.tokens[t].consumed then Used else Expired))]
      && s'.db.passwords == s.db.passwords && s'.db.tokens == s.db.tokens
  {
    assert Apply(s, Step(p, draw)) == s.(procs := s.procs[p := ConfirmClassify(t)]);
  }

  /** An issue call's five statements with nothing in between: all the user's
      tokens make way for the new one, which lasts ten minutes. */
  lemma IssueAlone(s: State, p: Pid, c: Call, t: Token)
    requires p in s.procs && s.procs[p] == IssueDelete(c) && c.user in s.db.passwords
    requires t !in s.db.issued && t !in s.db.presented && t !in s.db.tokens
    ensures var step := Step(p, t);
      var s' := Apply(Apply(Apply(Apply(Apply(s, step), step), step), step), step);
      && s'.procs == s.procs[p := Finished(Issued(t))] && s'.db.passwords == s.db.passwords
      && t in s'.db.tokens && s'.db.tokens[t] == TokenRow(c.user, s.db.now + 600, false)
      && (forall x | x != t :: x in s'.db.tokens <==> x in s.db.tokens && s.db.tokens[x].user != c.user)
      && (forall x | x != t && x in s'.db.tokens :: s'.db.tokens[x] == s.db.tokens[x])
  {
    var step := Step(p, t);
    var s1 := Apply(s, step);
    DeleteAlone(s, p, c, t);
    NameAlone(s1, p, c, |s.db.log|, t);
    InsertAlone(Apply(Apply(s1, step), step), p, c, |s.db.log|, t, s.db.now + 600);
  }

  lemma DeleteAlone(s: State, p: Pid, c: Call, t: Token)
    requires p in s.procs && s.procs[p] == IssueDelete(c)
    ensures var s' := Apply(s, Step(p, t));
      && s'.procs == s.procs[p := IssueName(c, |s.db.log|)] && s'.db.passwords == s.db.passwords
      && s'.db.now == s.db.now && s'.db.issued == s.db.issued && s'.db.presented == s.db.presented
      && (forall x :: x in s'.db.tokens <==> x in s.db.tokens && s.db.tokens[x].user != c.user)
      && (forall x | x in s'.db.tokens :: s'.db.tokens[x] == s.db.tokens[x])
  {
  }

  lemma NameAlone(s: State, p: Pid, c: Call, since: nat, t: Token)
    requires p in s.procs && s.procs[p] == IssueName(c, since) && t !in s.db.issued && t !in s.db.presented
    ensures var s' := Apply(Apply(s, Step(p, t)), Step(p, t));
      && s'.procs == s.procs[p := IssueInsert(c, since, t, s.db.now + 600)]
      && s'.db.tokens == s.db.tokens && s'.db.passwords == s.db.passwords
  {
    var s1 := Apply(s, Step(p, t));
    assert s1.procs == s.procs[p := IssueStamp(c, since, t)];
    assert Apply(s1, Step(p, t)).procs == s1.procs[p := IssueInsert(c, since, t, s.db.now + 600)];
  }

  lemma InsertAlone(s: State, p: Pid, c: Call, since: nat, t: Token, expires: Time)
    requires p in s.procs && s.procs[p] == IssueInsert(c, since, t, expires)
    requires c.user in s.db.passwords && t !in s.db.tokens && !HasOpen(s.db, c.user)
    ensures var s' := Apply(Apply(s, Step(p, t)), Step(p, t));
      && s'.procs == s.procs[p := Finished(Issued(t))] && s'.db.passwords == s.db.passwords
      && s'.db.tokens == s.db.tokens[t := TokenRow(c.user, expires, false)]
  {
    OpenBlocks(s.db, c.user);
    var s1 := Apply(s, Step(p, t));
    assert s1.procs == s.procs[p := IssueReturn(Issued(t))];
    assert Apply(s1, Step(p, t)).procs == s1.procs[p := Finished(Issued(t))];
  }
}
