/** Runs that reach the login machine's bounds: m verify requests at once do
    record 4 + m failures on one pending session, and a second enrolment
    between a confirm's check and its last statement is armed unconfirmed. */
module AuthLimits {
  import opened Outcomes
  import opened Totp
  import opened Ids
  import opened AuthDb
  import opened AuthHandlers
  import opened AuthInvariant
  import opened AuthTheorems
  import opened AuthSolo

  // ---- building schedules ------------------------------------------------------------------

  lemma {:induction false} AtMostConcat(cfg: Config, s: State, a: seq<Action>, b: seq<Action>, t: Token, m: nat)
    requires AtMost(cfg, s, a, t, m) && AtMost(cfg, Run(cfg, s, a), b, t, m)
    ensures AtMost(cfg, s, a + b, t, m)
    decreases |a|
  {
    if a == [] {
      assert a + b == b;
    } else {
      assert (a + b)[1..] == a[1..] + b;
      AtMostConcat(cfg, Apply(cfg, s, a[0]), a[1..], b, t, m);
    }
  }

  /** Only requests in q arrive or run. */
  predicate By(schedule: seq<Action>, q: set<Pid>) {
    forall a | a in schedule :: (a.Step? || a.Arrive? || a.Fail?) && a.pid in q
  }

  lemma {:induction false} FewAtWork(cfg: Config, s: State, schedule: seq<Action>, t: Token, q: set<Pid>)
    requires By(schedule, q) && Busy(s, t) <= q
    ensures AtMost(cfg, s, schedule, t, |q|)
    decreases |schedule|
  {
    SubsetSize(Busy(s, t), q);
    if schedule != [] {
      var a := schedule[0];
      assert a in schedule;
      var s' := Apply(cfg, s, a);
      assert forall p | p in s'.procs && p != a.pid :: p in s.procs && s'.procs[p] == s.procs[p];
      assert forall b | b in schedule[1..] :: b in schedule;
      FewAtWork(cfg, s', schedule[1..], t, q);
    }
  }

  lemma {:induction false} AtMostMore(cfg: Config, s: State, schedule: seq<Action>, t: Token, m: nat, n: nat)
    requires AtMost(cfg, s, schedule, t, m) && m <= n
    ensures AtMost(cfg, s, schedule, t, n)
    decreases |schedule|
  {
    if schedule != [] { AtMostMore(cfg, Apply(cfg, s, schedule[0]), schedule[1..], t, m, n); }
  }

  /** The schedule leads from a fresh state to s with at most m verify requests
      for t at work at once, and none at the end. */
  ghost predicate Path(cfg: Config, init: State, schedule: seq<Action>, s: State, t: Token, m: nat) {
    Fresh(init) && s == Run(cfg, init, schedule) && AtMost(cfg, init, schedule, t, m) && Busy(s, t) == {}
  }

  lemma ExecKeeps(db: Db, p: Pid, stmt: Stmt)
    ensures var db' := Exec(db, p, stmt).0;
      && db'.now == db.now && db.log <= db'.log
      && db'.issued == if stmt.NewToken? && stmt.token !in db.issued then db.issued[stmt.token := p] else db.issued
  {
  }

  lemma NextDraws(h: Handler, draw: Token)
    requires !h.Finished?
    ensures Next(h, draw).NewToken? ==> Next(h, draw).token == draw
  {
  }

  lemma {:induction false} SoloKeeps(cfg: Config, db: Db, p: Pid, h: Handler, draw: Token, f: Faults)
    ensures var db' := Solo(cfg, db, p, h, draw, f).0;
      db'.now == db.now && db'.issued.Keys <= db.issued.Keys + {draw} && db.log <= db'.log
    decreases Remaining(h)
  {
    if h.Finished? {
    } else if Hits(f, h) {
      SoloKeeps(cfg, db, p, Failing(h), draw, f);
      Falls(cfg, db, p, h, draw, f);
    } else {
      var (db', reply) := Exec(db, p, Next(h, draw));
      ExecKeeps(db, p, Next(h, draw));
      NextDraws(h, draw);
      if !reply.Blocked? {
        ResumeDecreases(cfg, h, draw, reply);
        SoloKeeps(cfg, db', p, Resume(cfg, h, draw, reply), draw, f);
        Goes(cfg, db, p, h, draw, f);
      }
    }
  }

  function Arrived(cfg: Config, s: State, p: Pid, call: Call): State {
    s.(procs := s.procs[p := Entry(cfg, call)])
  }

  function Whole(cfg: Config, s: State, p: Pid, call: Call, draw: Token, f: Faults): seq<Action> {
    [Arrive(p, call)] + Moves(cfg, Arrived(cfg, s, p, call), p, draw, f, 8)
  }

  lemma {:induction false} MovesBy(cfg: Config, s: State, p: Pid, draw: Token, f: Faults, n: nat)
    requires p in s.procs
    ensures By(Moves(cfg, s, p, draw, f, n), {p})
    decreases n
  {
    if n > 0 { MovesBy(cfg, Apply(cfg, s, Move(s, p, draw, f)), p, draw, f, n - 1); }
  }

  /** A request from its arrival to its end. */
  lemma WholeRun(cfg: Config, s: State, p: Pid, call: Call, draw: Token, f: Faults)
    requires p !in s.procs && draw !in s.db.issued
    ensures Run(cfg, s, Whole(cfg, s, p, call, draw, f)) == Ended(s, p, Solo(cfg, s.db, p, Entry(cfg, call), draw, f))
  {
    var arrived := Arrived(cfg, s, p, call);
    RunFirst(cfg, s, Arrive(p, call), Moves(cfg, arrived, p, draw, f, 8));
    EntryShort(cfg, call);
    FromItsStart(cfg, s, p, Entry(cfg, call), draw, f);
  }

  lemma FromItsStart(cfg: Config, s: State, p: Pid, h: Handler, draw: Token, f: Faults)
    requires Remaining(h) <= 8 && draw !in s.db.issued
    ensures var arrived := s.(procs := s.procs[p := h]);
      Run(cfg, arrived, Moves(cfg, arrived, p, draw, f, 8)) == Ended(s, p, Solo(cfg, s.db, p, h, draw, f))
  {
    var arrived := s.(procs := s.procs[p := h]);
    SoloIsASchedule(cfg, arrived, p, draw, f, 8);
    EndedTwice(s, p, h, Solo(cfg, s.db, p, h, draw, f));
  }

  function Ended(s: State, p: Pid, outcome: (Db, Response)): State {
    State(outcome.0, s.procs[p := Finished(outcome.1)])
  }

  lemma EndedTwice(s: State, p: Pid, h: Handler, outcome: (Db, Response))
    ensures Ended(s.(procs := s.procs[p := h]), p, outcome) == Ended(s, p, outcome)
  {
    assert s.procs[p := h][p := Finished(outcome.1)] == s.procs[p := Finished(outcome.1)];
  }

  lemma RunFirst(cfg: Config, s: State, a: Action, rest: seq<Action>)
    ensures Run(cfg, s, [a] + rest) == Run(cfg, Apply(cfg, s, a), rest)
  {
    assert ([a] + rest)[1..] == rest;
  }

  lemma EntryShort(cfg: Config, call: Call)
    ensures Remaining(Entry(cfg, call)) <= 8
  {
  }

  lemma PathOn(cfg: Config, init: State, schedule: seq<Action>, s: State, t: Token, m: nat, more: seq<Action>,
               q: set<Pid>)
    requires Path(cfg, init, schedule, s, t, m) && By(more, q) && |q| <= m
    ensures Fresh(init) && AtMost(cfg, init, schedule + more, t, m)
    ensures Run(cfg, s, more) == Run(cfg, init, schedule + more)
  {
    RunConcat(cfg, init, schedule, more);
    FewAtWork(cfg, s, more, t, q);
    AtMostMore(cfg, s, more, t, |q|, m);
    AtMostConcat(cfg, init, schedule, more, t, m);
  }

  /** One more request, run from start to end with these faults. */
  lemma Then(cfg: Config, init: State, schedule: seq<Action>, s: State, t: Token, m: nat, p: Pid, call: Call,
             draw: Token, f: Faults)
    returns (longer: seq<Action>, s': State)
    requires Path(cfg, init, schedule, s, t, m) && m >= 1 && p !in s.procs && draw !in s.db.issued
    ensures Path(cfg, init, longer, s', t, m)
    ensures var e := CallEffect(cfg, s.db, call, draw, f);
      s'.procs == s.procs[p := Finished(e.response)] && s'.db.users == e.users && s'.db.sessions == e.sessions
    ensures s'.db.now == s.db.now && s'.db.issued.Keys <= s.db.issued.Keys + {draw} && s.db.log <= s'.db.log
  {
    NotStored(cfg, init, schedule, s, t, m, draw);
    WholeRun(cfg, s, p, call, draw, f);
    CallAlone(cfg, s.db, p, call, draw, f);
    SoloKeeps(cfg, s.db, p, Entry(cfg, call), draw, f);
    var whole := Whole(cfg, s, p, call, draw, f);
    MovesBy(cfg, Arrived(cfg, s, p, call), p, draw, f, 8);
    longer := schedule + whole;
    s' := Run(cfg, s, whole);
    PathOn(cfg, init, schedule, s, t, m, whole, {p});
    assert Busy(s', t) <= Busy(s, t);
  }

  lemma NotStored(cfg: Config, init: State, schedule: seq<Action>, s: State, t: Token, m: nat, x: Token)
    requires Path(cfg, init, schedule, s, t, m) && x !in s.db.issued
    ensures x !in s.db.sessions
  {
    assert Reachable(cfg, s);
    ReachableOk(cfg, s);
  }

  // ---- one account, enrolled -----------------------------------------------------------------

  /** The generator can produce a six-digit code for this secret at this step. */
  predicate Usable(g: Generator, secret: string, c: nat) {
    c >= 1 && g.decodes(secret) && |g.hotp(secret, c)| == CODE_LENGTH
  }

  /** Account 0, empty password, no second factor; the clock stands at step c. */
  function Opening(c: nat): State {
    State(Db(30 * c, map[0 := User(None, false, 0, "")], map[], map[], map[], []), map[])
  }

  /** Requests and tokens so far are numbered below k. */
  ghost predicate Below(s: State, k: nat) {
    (forall p | p in s.procs :: p < k) && (forall t | t in s.db.issued :: t < k)
  }

  function SignedIn(c: nat): map<Token, Session> {
    map[1 := Session(0, true, 0, 30 * c + 43200)]
  }

  lemma StartPath(cfg: Config, c: nat, t: Token, m: nat)
    ensures Path(cfg, Opening(c), [], Opening(c), t, m) && Below(Opening(c), 0)
  {
    assert Busy(Opening(c), t) == {};
  }

  /** No lockout DELETE of session 4 has failed. */
  ghost predicate NoLocks(s: State) {
    forall p | p in s.procs :: s.procs[p] != Finished(LockFailed(4))
  }

  lemma SignIn(cfg: Config, c: nat, t: Token, m: nat) returns (schedule: seq<Action>, s: State)
    requires m >= 1
    ensures Path(cfg, Opening(c), schedule, s, t, m) && Below(s, 2) && s.db.now == 30 * c
    ensures s.db.users == map[0 := User(None, false, 0, "")] && s.db.sessions == SignedIn(c) && NoLocks(s)
  {
    var init := Opening(c);
    StartPath(cfg, c, t, m);
    schedule, s := Then(cfg, init, [], init, t, m, 1, Login(0, ""), 1, NO_FAULTS);
    assert Purged(init.db) == map[];
    assert init.db.users[0] == User(None, false, 0, "");
  }

  /** Enrolment of another secret through session 1, by request and draw k. */
  lemma Enrol(cfg: Config, init: State, before: seq<Action>, s0: State, t: Token, m: nat, c: nat, k: nat,
              secret: string)
    returns (schedule: seq<Action>, s: State)
    requires cfg.totpOn && Path(cfg, init, before, s0, t, m) && m >= 1 && Below(s0, k) && s0.db.now == 30 * c
    requires 0 in s0.db.users && !s0.db.users[0].enabled && s0.db.users[0].password == ""
    requires s0.db.sessions == SignedIn(c)
    ensures Path(cfg, init, schedule, s, t, m) && Below(s, k + 1) && s.db.now == 30 * c
    ensures s.procs == s0.procs[k := Finished(Done)] && s0.db.log <= s.db.log
    ensures s.db.users == s0.db.users[0 := User(Some(Intact(secret, 0)), false, 0, "")] && s.db.sessions == SignedIn(c)
  {
    schedule, s := Then(cfg, init, before, s0, t, m, k, Authed(1, Enroll(secret, 0)), k, NO_FAULTS);
  }

  lemma CodeIsGood(g: Generator, secret: string, c: nat)
    requires Usable(g, secret, c)
    ensures StepOf(30 * c) == c
    ensures var v := VerdictOf(g, CodeUse(secret, g.hotp(secret, c), c)); v.Some? && v.value >= c
  {
    assert Candidate(g, secret, g.hotp(secret, c), c, c);
  }

  lemma ConfirmNow(cfg: Config, init: State, before: seq<Action>, s0: State, t: Token, m: nat, c: nat, secret: string)
    returns (schedule: seq<Action>, s: State)
    requires cfg.totpOn && Usable(cfg.g, secret, c)
    requires Path(cfg, init, before, s0, t, m) && m >= 1 && Below(s0, 3) && s0.db.now == 30 * c
    requires s0.db.users == map[0 := User(Some(Intact(secret, 0)), false, 0, "")] && s0.db.sessions == SignedIn(c)
    requires NoLocks(s0)
    ensures Path(cfg, init, schedule, s, t, m) && Below(s, 4) && s.db.now == 30 * c && s.db.sessions == SignedIn(c)
    ensures Armed(s.db, secret) && NoLocks(s)
  {
    schedule, s := Then(cfg, init, before, s0, t, m, 3, Authed(1, ConfirmOf(cfg.g, secret, c)), 3, NO_FAULTS);
    ConfirmedEffect(cfg, s0.db, secret, c);
  }

  /** Account 0 has this secret armed. */
  predicate Armed(db: Db, secret: string) {
    0 in db.users && db.users[0].enabled && db.users[0].secret == Some(Intact(secret, 0)) && db.users[0].password == ""
  }

  function ConfirmOf(g: Generator, a: string, c: nat): Request {
    Confirm(g.hotp(a, c), "")
  }

  lemma ConfirmedEffect(cfg: Config, db: Db, secret: string, c: nat)
    requires Usable(cfg.g, secret, c) && db.now == 30 * c
    requires db.users == map[0 := User(Some(Intact(secret, 0)), false, 0, "")]
    ensures var e := ConfirmEffect(cfg, db, 0, cfg.g.hotp(secret, c), "", NO_FAULTS);
      Armed(db.(users := e.users), secret) && e.sessions == db.sessions && e.response == Done
  {
    CodeIsGood(cfg.g, secret, c);
  }

  /** A pending session, 4, of an account with its second factor armed. */
  ghost predicate Pending4(s: State, secret: string, c: nat, attempts: nat) {
    && s.db.now == 30 * c && LivePending(s.db, 4) && s.db.sessions[4].attempts == attempts && s.db.sessions[4].user == 0
    && 0 in s.db.users && s.db.users[0].secret == Some(Intact(secret, 0))
  }

  lemma LogInHalf(cfg: Config, init: State, before: seq<Action>, s0: State, t: Token, m: nat, c: nat, secret: string)
    returns (schedule: seq<Action>, s: State)
    requires cfg.totpOn && Path(cfg, init, before, s0, t, m) && m >= 1 && Below(s0, 4) && s0.db.now == 30 * c
    requires s0.db.sessions == SignedIn(c) && Armed(s0.db, secret) && NoLocks(s0)
    ensures Path(cfg, init, schedule, s, t, m) && Below(s, 5) && Pending4(s, secret, c, 0) && LocksFrom9(s, 0)
  {
    schedule, s := Then(cfg, init, before, s0, t, m, 4, Login(0, ""), 4, NO_FAULTS);
    HalfLoginEffect(cfg, s0.db, secret);
  }

  lemma HalfLoginEffect(cfg: Config, db: Db, secret: string)
    requires cfg.totpOn && Armed(db, secret) && 4 !in db.sessions
    ensures var e := LoginEffect(cfg, db, 0, "", 4, NO_FAULTS);
      && e.users == db.users && 4 in e.sessions && e.sessions[4] == Session(0, false, 0, db.now + 300)
      && e.response == LoggedIn(4, false)
  {
  }

  lemma EmptyCodeIsBad(g: Generator, secret: string, step: int)
    ensures VerdictOf(g, CodeUse(secret, "", step)) == None
  {
  }

  const LOCK_FAILS := NO_FAULTS.(lock := true)

  /** Verify requests 5, 6, ... so far; those from the fifth on failed to lock. */
  ghost predicate LocksFrom9(s: State, n: nat) {
    forall p :: p in FailedLocks(s, 4) <==> 9 <= p < 5 + n
  }

  /** A verify with an empty code, alone; its lockout DELETE, if it gets to it, fails. */
  lemma FailOnce(cfg: Config, init: State, before: seq<Action>, s0: State, m: nat, c: nat, secret: string, k: nat)
    returns (schedule: seq<Action>, s: State)
    requires cfg.totpOn && Path(cfg, init, before, s0, 4, m) && m >= 1
    requires Below(s0, 5 + k) && Pending4(s0, secret, c, k) && LocksFrom9(s0, k)
    ensures Path(cfg, init, schedule, s, 4, m)
    ensures Below(s, 6 + k) && Pending4(s, secret, c, k + 1) && LocksFrom9(s, k + 1)
  {
    schedule, s := Then(cfg, init, before, s0, 4, m, 5 + k, Verify(4, ""), 5 + k, LOCK_FAILS);
    EmptyCodeEffect(cfg, s0, secret, c, k, 5 + k);
    assert forall p | p != 5 + k :: p in FailedLocks(s, 4) <==> p in FailedLocks(s0, 4);
  }

  lemma EmptyCodeEffect(cfg: Config, s: State, secret: string, c: nat, k: nat, draw: Token)
    requires Pending4(s, secret, c, k)
    ensures var e := VerifyEffect(cfg, s.db, 4, "", draw, LOCK_FAILS);
      && e.users == s.db.users && e.sessions == s.db.sessions[4 := s.db.sessions[4].(attempts := k + 1)]
      && e.response == if k < 4 then InvalidCode(k + 1) else LockFailed(4)
  {
    EmptyCodeIsBad(cfg.g, secret, StepOf(s.db.now));
  }

  lemma {:induction false} FailInTurn(cfg: Config, init: State, before: seq<Action>, s0: State, m: nat, c: nat,
                                      secret: string, n: nat)
    returns (schedule: seq<Action>, s: State)
    requires cfg.totpOn && Path(cfg, init, before, s0, 4, m) && m >= 1
    requires Below(s0, 5) && Pending4(s0, secret, c, 0) && LocksFrom9(s0, 0)
    ensures Path(cfg, init, schedule, s, 4, m)
    ensures Below(s, 5 + n) && Pending4(s, secret, c, n) && LocksFrom9(s, n)
  {
    if n == 0 {
      schedule, s := before, s0;
    } else {
      schedule, s := FailInTurn(cfg, init, before, s0, m, c, secret, n - 1);
      schedule, s := FailOnce(cfg, init, schedule, s, m, c, secret, n - 1);
    }
  }

  // ---- m requests at once -----------------------------------------------------------------------

  /** The pids from b to b + m. */
  function Pids(b: nat, m: nat): set<Pid> {
    if m == 0 then {} else Pids(b, m - 1) + {b + m - 1}
  }

  lemma {:induction false} PidsAre(b: nat, m: nat)
    ensures |Pids(b, m)| == m && forall p :: p in Pids(b, m) <==> b <= p < b + m
  {
    if m > 0 { PidsAre(b, m - 1); }
  }

  function Arrival(p: Pid): seq<Action> {
    [Arrive(p, Verify(4, "")), Step(p, 0), Step(p, 0), Step(p, 0)]
  }

  /** A request with an empty code gets to the point of recording its failure
      without changing a table. */
  lemma Poised(cfg: Config, s: State, p: Pid, secret: string, c: nat, a: nat)
    requires cfg.totpOn && Pending4(s, secret, c, a) && p !in s.procs
    ensures Run(cfg, s, Arrival(p)) == State(s.db, s.procs[p := VerifyFail(4)])
  {
    var step := Step(p, 0);
    var s1 := Apply(cfg, s, Arrive(p, Verify(4, "")));
    var s2 := Apply(cfg, s1, step);
    assert s2 == State(s.db, s.procs[p := VerifyLoad(4, "", 0)]);
    var s3 := Apply(cfg, s2, step);
    assert s3 == State(s.db, s.procs[p := VerifyCheck(4, "", 0, secret)]);
    EmptyCodeIsBad(cfg.g, secret, StepOf(s.db.now));
    var s4 := Apply(cfg, s3, step);
    assert s4 == State(s.db, s.procs[p := VerifyFail(4)]);
    RunThreeSteps(cfg, s, Arrive(p, Verify(4, "")), p);
  }

  lemma RunThreeSteps(cfg: Config, s: State, a: Action, p: Pid)
    ensures var step := Step(p, 0);
      Run(cfg, s, [a, step, step, step]) == Apply(cfg, Apply(cfg, Apply(cfg, Apply(cfg, s, a), step), step), step)
  {
    var step := Step(p, 0);
    RunFirst(cfg, s, a, [step, step, step]);
    RunFirst(cfg, Apply(cfg, s, a), step, [step, step]);
    RunFirst(cfg, Apply(cfg, Apply(cfg, s, a), step), step, [step]);
    RunFirst(cfg, Apply(cfg, Apply(cfg, Apply(cfg, s, a), step), step), step, []);
    assert [a] + [step, step, step] == [a, step, step, step] && [step] + [step, step] == [step, step, step];
    assert [step] + [step] == [step, step] && [step] + [] == [step];
  }

  /** Requests from b on are about to record a failure, k of them. */
  ghost predicate AllPoised(s: State, b: nat, k: nat) {
    forall p | b <= p < b + k :: p in s.procs && s.procs[p] == VerifyFail(4)
  }

  /** The requests below b are as they were, and there are none from c on. */
  ghost predicate SameBelow(s: State, s': State, b: nat, c: nat) {
    && (forall p | p in s'.procs :: p < c)
    && (forall p | p < b :: (p in s.procs <==> p in s'.procs) && (p in s.procs ==> s'.procs[p] == s.procs[p]))
  }

  lemma {:induction false} Gather(cfg: Config, s: State, b: nat, k: nat, secret: string, c: nat, a: nat)
    returns (schedule: seq<Action>)
    requires cfg.totpOn && Pending4(s, secret, c, a) && forall p | p in s.procs :: p < b
    ensures By(schedule, Pids(b, k))
    ensures var r := Run(cfg, s, schedule); r.db == s.db && AllPoised(r, b, k) && SameBelow(s, r, b, b + k)
  {
    schedule := [];
    if k > 0 {
      var first := Gather(cfg, s, b, k - 1, secret, c, a);
      var r := Run(cfg, s, first);
      var p := b + k - 1;
      schedule := first + Arrival(p);
      Poised(cfg, r, p, secret, c, a);
      RunConcat(cfg, s, first, Arrival(p));
      OneMorePoised(s, r, State(r.db, r.procs[p := VerifyFail(4)]), b, k);
    }
  }

  lemma OneMorePoised(s: State, r: State, r': State, b: nat, k: nat)
    requires k > 0 && AllPoised(r, b, k - 1) && SameBelow(s, r, b, b + k - 1)
    requires r' == State(r.db, r.procs[b + k - 1 := VerifyFail(4)])
    ensures AllPoised(r', b, k) && SameBelow(s, r', b, b + k)
  {
  }

  /** Failures recorded by requests below lo; those from lo to hi still to come. */
  ghost predicate Firing(s: State, lo: nat, hi: nat, secret: string, c: nat, attempts: nat, locks: set<Pid>) {
    && Pending4(s, secret, c, attempts) && FailedLocks(s, 4) == locks
    && forall p | lo <= p < hi :: p in s.procs && s.procs[p] == VerifyFail(4)
  }

  lemma FireOne(cfg: Config, s: State, p: Pid, hi: nat, secret: string, c: nat, a: nat, locks: set<Pid>)
    requires Firing(s, p, hi, secret, c, a, locks) && p < hi
    ensures Firing(Apply(cfg, s, Step(p, 0)), p + 1, hi, secret, c, a + 1, locks)
  {
    var r := Apply(cfg, s, Step(p, 0));
    assert r.procs == s.procs[p := r.procs[p]];
    assert FailedLocks(r, 4) == FailedLocks(s, 4);
  }

  lemma RunOneMore(cfg: Config, s: State, first: seq<Action>, a: Action)
    ensures Run(cfg, s, first + [a]) == Apply(cfg, Run(cfg, s, first), a)
  {
    RunConcat(cfg, s, first, [a]);
    assert Run(cfg, Run(cfg, s, first), [a]) == Apply(cfg, Run(cfg, s, first), a);
  }

  /** The first k of n poised requests record their failures. */
  lemma {:induction false} Fire(cfg: Config, s: State, b: nat, k: nat, n: nat, secret: string, c: nat, a: nat)
    returns (schedule: seq<Action>)
    requires Firing(s, b, b + n, secret, c, a, FailedLocks(s, 4)) && k <= n
    ensures By(schedule, Pids(b, k))
    ensures Firing(Run(cfg, s, schedule), b + k, b + n, secret, c, a + k, FailedLocks(s, 4))
  {
    schedule := [];
    if k > 0 {
      var first := Fire(cfg, s, b, k - 1, n, secret, c, a);
      var p := b + k - 1;
      RunOneMore(cfg, s, first, Step(p, 0));
      FireOne(cfg, Run(cfg, s, first), p, b + n, secret, c, a + k - 1, FailedLocks(s, 4));
      schedule := first + [Step(p, 0)];
    }
  }

  /** From n failures in turn to n + m, with m requests at work. */
  lemma FailTogether(cfg: Config, init: State, before: seq<Action>, s0: State, m: nat, c: nat, secret: string, n: nat)
    returns (schedule: seq<Action>)
    requires cfg.totpOn && Path(cfg, init, before, s0, 4, m)
    requires Below(s0, 5 + n) && Pending4(s0, secret, c, n) && LocksFrom9(s0, n)
    ensures Fresh(init) && AtMost(cfg, init, schedule, 4, m)
    ensures var s := Run(cfg, init, schedule); Pending4(s, secret, c, n + m) && LocksFrom9(s, n)
  {
    var gather := Gather(cfg, s0, 5 + n, m, secret, c, n);
    var r := Run(cfg, s0, gather);
    GatheredLocks(s0, r, n, m);
    var fire := Fire(cfg, r, 5 + n, m, m, secret, c, n);
    RunConcat(cfg, s0, gather, fire);
    PidsAre(5 + n, m);
    PathOn(cfg, init, before, s0, 4, m, gather + fire, Pids(5 + n, m));
    schedule := before + (gather + fire);
  }

  lemma GatheredLocks(s: State, r: State, n: nat, m: nat)
    requires Below(s, 5 + n) && AllPoised(r, 5 + n, m) && SameBelow(s, r, 5 + n, 5 + n + m)
    ensures FailedLocks(r, 4) == FailedLocks(s, 4)
  {
  }

  /** The bound of FailuresPerSession is reached whatever m and f are: with m
      verify requests at once and f lockout DELETEs that fail, a pending session
      can absorb 4 + m + f failures. */
  lemma FailuresReached(cfg: Config, secret: string, c: nat, m: nat, f: nat)
    returns (init: State, schedule: seq<Action>, t: Token)
    requires cfg.totpOn && Usable(cfg.g, secret, c) && m >= 1
    ensures Fresh(init) && AtMost(cfg, init, schedule, t, m) && |FailedLocks(Run(cfg, init, schedule), t)| == f
    ensures |FailuresOf(Run(cfg, init, schedule).db.log, t)| == Budget(m, f)
  {
    init, t := Opening(c), 4;
    var s;
    schedule, s := SignIn(cfg, c, t, m);
    schedule, s := Enrol(cfg, init, schedule, s, t, m, c, 2, secret);
    schedule, s := ConfirmNow(cfg, init, schedule, s, t, m, c, secret);
    schedule, s := LogInHalf(cfg, init, schedule, s, t, m, c, secret);
    schedule, s := FailInTurn(cfg, init, schedule, s, m, c, secret, 4 + f);
    schedule := FailTogether(cfg, init, schedule, s, m, c, secret, 4 + f);
    var end := Run(cfg, init, schedule);
    PidsAre(9, f);
    assert FailedLocks(end, t) == Pids(9, f);
    assert Reachable(cfg, end);
    AttemptBudget(cfg, end, t);
  }

  /** No pending session absorbs more than k failures while at most m verify
      requests for it are at work at once and at most f of its lockout DELETEs fail. */
  ghost predicate NeverMore(cfg: Config, m: nat, f: nat, k: nat) {
    forall init, schedule, t ::
        Fresh(init) && AtMost(cfg, init, schedule, t, m) && |FailedLocks(Run(cfg, init, schedule), t)| <= f ==>
          |FailuresOf(Run(cfg, init, schedule).db.log, t)| <= k
  }

  /** The budget is exact: k is a limit if and only if it is at least 4 + m + f,
      or nobody is ever at work. */
  lemma BudgetExactly(cfg: Config, secret: string, c: nat, m: nat, f: nat, k: nat)
    requires cfg.totpOn && Usable(cfg.g, secret, c)
    ensures NeverMore(cfg, m, f, k) <==> Budget(m, f) <= k
  {
    if Budget(m, f) <= k {
      forall init, schedule, t | Fresh(init) && AtMost(cfg, init, schedule, t, m)
          && |FailedLocks(Run(cfg, init, schedule), t)| <= f
        ensures |FailuresOf(Run(cfg, init, schedule).db.log, t)| <= k
      {
        FailuresPerSession(cfg, init, schedule, t, m);
      }
    } else {
      var init, schedule, t := FailuresReached(cfg, secret, c, m, f);
    }
  }

  /** The limit of five attempts holds if and only if verify requests for a
      session come one at a time and no lockout DELETE of it fails. */
  lemma FiveAttemptsExactly(cfg: Config, secret: string, c: nat, m: nat, f: nat)
    requires cfg.totpOn && Usable(cfg.g, secret, c)
    ensures NeverMore(cfg, m, f, MAX_TOTP_ATTEMPTS) <==> m == 0 || (m == 1 && f == 0)
  {
    BudgetExactly(cfg, secret, c, m, f, MAX_TOTP_ATTEMPTS);
  }

  // ---- two enrolments and one confirm -------------------------------------------------------------

  lemma RunFourSteps(cfg: Config, s: State, a: Action, p: Pid)
    ensures var step := Step(p, 0);
      Run(cfg, s, [a, step, step, step, step])
        == Apply(cfg, Apply(cfg, Apply(cfg, Apply(cfg, Apply(cfg, s, a), step), step), step), step)
  {
    var step := Step(p, 0);
    RunFirst(cfg, s, a, [step, step, step, step]);
    RunThreeSteps(cfg, Apply(cfg, s, a), step, p);
    assert [a] + [step, step, step, step] == [a, step, step, step, step];
  }

  function UseOf(g: Generator, a: string, c: nat): CodeUse {
    CodeUse(a, g.hotp(a, c), c)
  }

  /** The account during an enrolment of secret a. */
  ghost predicate Enrolling(db: Db, a: string, c: nat) {
    db.now == 30 * c && db.sessions == SignedIn(c) && db.users == map[0 := User(Some(Intact(a, 0)), false, 0, "")]
  }

  lemma ConfirmLoads(cfg: Config, s: State, a: string, c: nat)
    requires cfg.totpOn && Usable(cfg.g, a, c) && 3 !in s.procs && Enrolling(s.db, a, c)
    ensures var arrived := Apply(cfg, s, Arrive(3, Authed(1, ConfirmOf(cfg.g, a, c))));
      Apply(cfg, Apply(cfg, arrived, Step(3, 0)), Step(3, 0))
           == State(s.db, s.procs[3 := Check(0, ToConfirm, cfg.g.hotp(a, c), a)])
  {
    var arrived := Apply(cfg, s, Arrive(3, Authed(1, ConfirmOf(cfg.g, a, c))));
    assert arrived == State(s.db, s.procs[3 := Gate(1, ConfirmOf(cfg.g, a, c))]);
    var loading := Apply(cfg, arrived, Step(3, 0));
    assert loading == State(s.db, s.procs[3 := Load(0, ConfirmOf(cfg.g, a, c))]);
    ConfirmReads(cfg, loading, a, c);
  }

  lemma ConfirmReads(cfg: Config, s: State, a: string, c: nat)
    requires Enrolling(s.db, a, c) && 3 in s.procs && s.procs[3] == Load(0, ConfirmOf(cfg.g, a, c))
    ensures Apply(cfg, s, Step(3, 0)) == State(s.db, s.procs[3 := Check(0, ToConfirm, cfg.g.hotp(a, c), a)])
  {
    assert s.db.users[0] == User(Some(Intact(a, 0)), false, 0, "");
  }

  lemma ConfirmAccepts(cfg: Config, s: State, a: string, c: nat)
    requires Usable(cfg.g, a, c) && 3 in s.procs && Enrolling(s.db, a, c)
    requires s.procs[3] == Check(0, ToConfirm, cfg.g.hotp(a, c), a)
    ensures VerdictOf(cfg.g, UseOf(cfg.g, a, c)).Some?
    ensures var v := VerdictOf(cfg.g, UseOf(cfg.g, a, c)).value;
      Apply(cfg, Apply(cfg, s, Step(3, 0)), Step(3, 0))
        == State(WithCode(cfg.g, s.db, a, c, v), s.procs[3 := Arm(0)])
  {
    CodeIsGood(cfg.g, a, c);
    var v := VerdictOf(cfg.g, UseOf(cfg.g, a, c)).value;
    var s' := Apply(cfg, s, Step(3, 0));
    assert s' == State(s.db, s.procs[3 := Accept(0, ToConfirm, UseOf(cfg.g, a, c), v)]);
    assert s.db.users[0 := User(Some(Intact(a, 0)), false, v, "")] == map[0 := User(Some(Intact(a, 0)), false, v, "")];
  }

  function Almost(g: Generator, a: string, c: nat): seq<Action> {
    [Arrive(3, Authed(1, ConfirmOf(g, a, c))), Step(3, 0), Step(3, 0), Step(3, 0), Step(3, 0)]
  }

  function WithCode(g: Generator, db: Db, a: string, c: nat, v: int): Db {
    db.(users := map[0 := User(Some(Intact(a, 0)), false, v, "")], log := db.log + [Accepted(3, 0, UseOf(g, a, c), v)])
  }

  lemma AlmostRun(cfg: Config, s: State, a: string, c: nat)
    requires cfg.totpOn && Usable(cfg.g, a, c) && 3 !in s.procs && Enrolling(s.db, a, c)
    ensures exists v ::
        Run(cfg, s, Almost(cfg.g, a, c)) == State(WithCode(cfg.g, s.db, a, c, v), s.procs[3 := Arm(0)])
  {
    ConfirmLoads(cfg, s, a, c);
    var loaded := State(s.db, s.procs[3 := Check(0, ToConfirm, cfg.g.hotp(a, c), a)]);
    ConfirmAccepts(cfg, loaded, a, c);
    RunFourSteps(cfg, s, Arrive(3, Authed(1, ConfirmOf(cfg.g, a, c))), 3);
    assert loaded.procs[3 := Arm(0)] == s.procs[3 := Arm(0)];
    var v := VerdictOf(cfg.g, UseOf(cfg.g, a, c)).value;
    assert Run(cfg, s, Almost(cfg.g, a, c)) == State(WithCode(cfg.g, s.db, a, c, v), s.procs[3 := Arm(0)]);
  }

  /** Request 3 confirms secret a up to its last statement. */
  lemma ConfirmAlmost(cfg: Config, init: State, before: seq<Action>, s: State, a: string, c: nat)
    returns (schedule: seq<Action>, r: State)
    requires cfg.totpOn && Usable(cfg.g, a, c) && Below(s, 3) && Enrolling(s.db, a, c)
    requires Path(cfg, init, before, s, 4, 1)
    ensures Path(cfg, init, schedule, r, 4, 1) && Below(r, 4) && r.procs == s.procs[3 := Arm(0)]
    ensures r.db.now == 30 * c && r.db.sessions == SignedIn(c)
    ensures 0 in r.db.users && !r.db.users[0].enabled && r.db.users[0].password == ""
    ensures AcceptedAt(r.db.log, |s.db.log|, 3, 0) && r.db.log[|s.db.log|].use == UseOf(cfg.g, a, c)
  {
    AlmostRun(cfg, s, a, c);
    r := Run(cfg, s, Almost(cfg.g, a, c));
    PathOn(cfg, init, before, s, 4, 1, Almost(cfg.g, a, c), {3});
    schedule := before + Almost(cfg.g, a, c);
    assert Busy(r, 4) <= Busy(s, 4);
  }

  /** Account 0 has secret b armed by request 3, whose accepted code was one of secret a. */
  ghost predicate ArmedUnconfirmed(s: State, a: string, b: string) {
    && 0 in s.db.users && s.db.users[0].enabled && s.db.users[0].secret == Some(Intact(b, 0))
    && 3 in s.procs && s.procs[3] == Finished(Done)
    && exists i :: AcceptedAt(s.db.log, i, 3, 0) && s.db.log[i].use.secret == a
  }

  /** ConfirmedCodeIsStored needs its condition: when a second enrolment stores
      secret b between a confirm's check of secret a and its last statement,
      b is armed though no code of it was ever shown. */
  lemma InterleavedEnrolments(cfg: Config, a: string, b: string, c: nat)
    requires cfg.totpOn && Usable(cfg.g, a, c)
    ensures exists s :: Reachable(cfg, s) && ArmedUnconfirmed(s, a, b)
  {
    var init := Opening(c);
    var schedule, s := SignIn(cfg, c, 4, 1);
    schedule, s := Enrol(cfg, init, schedule, s, 4, 1, c, 2, a);
    var n := |s.db.log|;
    schedule, s := ConfirmAlmost(cfg, init, schedule, s, a, c);
    var almost := s;
    schedule, s := Enrol(cfg, init, schedule, s, 4, 1, c, 4, b);
    assert AcceptedAt(s.db.log, n, 3, 0) by { assert s.db.log[n] == almost.db.log[n]; }
    Arms(cfg, s, a, b, n);
    assert Reachable(cfg, s);
    ReachableNext(cfg, s, Step(3, 0));
  }

  lemma Arms(cfg: Config, s: State, a: string, b: string, n: nat)
    requires 3 in s.procs && s.procs[3] == Arm(0) && AcceptedAt(s.db.log, n, 3, 0) && s.db.log[n].use.secret == a
    requires 0 in s.db.users && !s.db.users[0].enabled && s.db.users[0].secret == Some(Intact(b, 0))
    ensures ArmedUnconfirmed(Apply(cfg, s, Step(3, 0)), a, b)
  {
    var t := Apply(cfg, s, Step(3, 0));
    assert AcceptedAt(t.db.log, n, 3, 0) && t.db.log[n].use.secret == a;
  }

  lemma ReachableNext(cfg: Config, s: State, a: Action)
    requires Reachable(cfg, s)
    ensures Reachable(cfg, Apply(cfg, s, a))
  {
    var init, schedule :| Fresh(init) && s == Run(cfg, init, schedule);
    RunConcat(cfg, init, schedule, [a]);
    assert Run(cfg, s, [a]) == Apply(cfg, s, a);
  }
}
