/** Profile updates from possibly stale loads, interleaved with each other and
    with registration, deletion, and role, password and TOTP changes.
    One statement is one atomic step. */
module ProfileRuns {
  import opened Outcomes
  import opened Ids
  import opened Profile
  import Phone

  datatype Outcome = Updated | Refused(error: UpdateError) | Missing

  /** An update request between its statements. */
  datatype Handler =
    | Loaded(u: int, seen: Editable, req: Request)      // the conflict count is next
    | Writing(u: int, seen: Editable, req: Request, taken: bool)  // the UPDATE is next
    | Finished(outcome: Outcome)

  datatype State = State(rows: map<int, Row>, used: set<int>, procs: map<Pid, Handler>)

  /** Writes to the columns outside the whitelist. */
  datatype Change =
    | SetRole(role: string)
    | SetPassword(hash: string)
    | SetTotp(secret: Option<string>, enabled: bool, counter: int)
    | AdvanceCounter(counter: int)

  function Changed(kept: Protected, c: Change): Protected {
    match c
    case SetRole(role) => kept.(role := role)
    case SetPassword(hash) => kept.(passwordHash := hash)
    case SetTotp(secret, enabled, counter) =>
      kept.(totpSecret := secret, totpEnabled := enabled, totpLastCounter := counter)
    case AdvanceCounter(counter) => if kept.totpLastCounter < counter then kept.(totpLastCounter := counter) else kept
  }

  datatype Action =
    | Load(pid: Pid, u: int, req: Request)
    | Count(pid: Pid)
    | Write(pid: Pid)
    | Alter(u: int, change: Change)
    | Register(u: int, form: Editable, hash: string)
    | Delete(u: int)

  /** Registration's checks, in the part of them that decides what a row may
      hold; the e-mail is stored in lower case, the numbers normalised, and an
      absent category means regular. */
  function Registered(form: Editable): Option<Editable> {
    var category := if form.category == "" then "regular" else form.category;
    var whatsapp := Phone.NormalizePhone(form.whatsapp);
    var emergency := Phone.NormalizePhone(form.emergencyNumber);
    if form.name == "" || form.email == "" || form.rank !in ALLOWED_RANKS || !form.consentDataStore then None
    else if whatsapp.Err? || emergency.Err? || CategoryFieldsMissing(category, form.fields) then None
    else Some(form.(email := Lower(form.email), whatsapp := whatsapp.value, category := category,
        emergencyNumber := emergency.value))
  }

  function ApplyCount(s: State, pid: Pid): State {
    if pid !in s.procs || !s.procs[pid].Loaded? then s
    else
      var h := s.procs[pid];
      var taken := Taken(s.rows, h.u, h.req.email);
      var merged := Merge(h.seen, h.req, taken);
      s.(procs := s.procs[pid := if merged.Err? then Finished(Refused(merged.error))
          else Writing(h.u, h.seen, h.req, taken)])
  }

  /** The whitelisted UPDATE of a row that may be gone, under the unique index. */
  function Store(s: State, pid: Pid, u: int, e: Editable): State {
    if u !in s.rows then s.(procs := s.procs[pid := Finished(Updated)])
    else if Taken(s.rows, u, e.email) then s.(procs := s.procs[pid := Finished(Refused(Conflict))])
    else s.(rows := s.rows[u := s.rows[u].(edit := e)], procs := s.procs[pid := Finished(Updated)])
  }

  function ApplyWrite(s: State, pid: Pid): State {
    if pid !in s.procs || !s.procs[pid].Writing? then s
    else
      var h := s.procs[pid];
      var merged := Merge(h.seen, h.req, h.taken);
      if merged.Err? then s else Store(s, pid, h.u, merged.value)
  }

  function ApplyRegister(s: State, u: int, form: Editable, hash: string): State {
    var e := Registered(form);
    if u in s.used || e.None? || Taken(s.rows, u, e.value.email) then s
    else s.(rows := s.rows[u := Row(e.value, Protected("new", hash, None, false, 0))], used := s.used + {u})
  }

  function ApplyLoad(s: State, pid: Pid, u: int, req: Request): State {
    if pid in s.procs then s
    else s.(procs := s.procs[pid := if u in s.rows then Loaded(u, s.rows[u].edit, req) else Finished(Missing)])
  }

  function ApplyAlter(s: State, u: int, c: Change): State {
    if u in s.rows then s.(rows := s.rows[u := s.rows[u].(kept := Changed(s.rows[u].kept, c))]) else s
  }

  function ApplyDelete(s: State, u: int): State {
    s.(rows := map v | v in s.rows && v != u :: s.rows[v])
  }

  function Apply(s: State, a: Action): State {
    match a
    case Load(pid, u, req) => ApplyLoad(s, pid, u, req)
    case Count(pid) => ApplyCount(s, pid)
    case Write(pid) => ApplyWrite(s, pid)
    case Alter(u, c) => ApplyAlter(s, u, c)
    case Register(u, form, hash) => ApplyRegister(s, u, form, hash)
    case Delete(u) => ApplyDelete(s, u)
  }

  function Run(s: State, actions: seq<Action>): State
    decreases |actions|
  {
    if actions == [] then s else Run(Apply(s, actions[0]), actions[1..])
  }

  // ---- what every row keeps ---------------------------------------------------------

  /** An account's editable columns keep the category rule, or are still the
      ones they were in `base`: the repository's migrations leave rows that
      break the rule until their next edit. */
  ghost predicate CategoryKept(base: map<int, Row>, rows: map<int, Row>, u: int) {
    u in rows ==> CategoryRule(rows[u].edit) || (u in base && rows[u].edit == base[u].edit)
  }

  lemma StepKeepsCategory(s: State, a: Action, u: int)
    ensures CategoryKept(s.rows, Apply(s, a).rows, u)
  {
    match a
    case Write(pid) => WriteKeepsCategory(s, pid, u);
    case Register(v, form, hash) => RegisterKeepsCategory(s, v, form, hash, u);
    case _ => assert forall v | v in Apply(s, a).rows :: v in s.rows && Apply(s, a).rows[v].edit == s.rows[v].edit;
  }

  lemma WriteKeepsCategory(s: State, pid: Pid, u: int)
    ensures CategoryKept(s.rows, ApplyWrite(s, pid).rows, u)
  {
    if pid in s.procs && s.procs[pid].Writing? {
      var h := s.procs[pid];
      var merged := Merge(h.seen, h.req, h.taken);
      if merged.Ok? {
        MergeRules(h.seen, h.req, h.taken);
        StoreKeepsCategory(s, pid, h.u, merged.value, u);
      }
    }
  }

  lemma StoreKeepsCategory(s: State, pid: Pid, v: int, e: Editable, u: int)
    requires CategoryRule(e)
    ensures CategoryKept(s.rows, Store(s, pid, v, e).rows, u)
  {
  }

  lemma RegisterKeepsCategory(s: State, v: int, form: Editable, hash: string, u: int)
    ensures CategoryKept(s.rows, ApplyRegister(s, v, form, hash).rows, u)
  {
  }

  /** In every run, from any table and with any updates in flight, every row
      satisfies the category rule or has not been edited since the start. */
  lemma {:induction false} RunKeepsCategory(s: State, actions: seq<Action>, u: int)
    ensures CategoryKept(s.rows, Run(s, actions).rows, u)
    decreases |actions|
  {
    if actions != [] {
      StepKeepsCategory(s, actions[0], u);
      RunKeepsCategory(Apply(s, actions[0]), actions[1..], u);
    }
  }

  ghost predicate UniqueEmails(rows: map<int, Row>) {
    forall u, v | u in rows && v in rows && u != v :: Lower(rows[u].edit.email) != Lower(rows[v].edit.email)
  }

  /** Storing a row under an e-mail no other row holds. */
  lemma StoreKeepsUnique(rows: map<int, Row>, u: int, row: Row)
    requires UniqueEmails(rows) && !Taken(rows, u, row.edit.email)
    ensures UniqueEmails(rows[u := row])
  {
  }

  lemma StepKeepsUnique(s: State, a: Action)
    requires UniqueEmails(s.rows)
    ensures UniqueEmails(Apply(s, a).rows)
  {
    var t := Apply(s, a);
    if (a.Write? || a.Register?) && t.rows != s.rows {
      var u := if a.Write? then s.procs[a.pid].u else a.u;
      StoreKeepsUnique(s.rows, u, t.rows[u]);
    }
  }

  /** In every run no two rows come to share an e-mail. */
  lemma {:induction false} RunKeepsUnique(s: State, actions: seq<Action>)
    requires UniqueEmails(s.rows)
    ensures UniqueEmails(Run(s, actions).rows)
    decreases |actions|
  {
    if actions != [] {
      StepKeepsUnique(s, actions[0]);
      RunKeepsUnique(Apply(s, actions[0]), actions[1..]);
    }
  }

  // ---- stored forms, column by column ---------------------------------------------------

  /** Each of the normalised columns of e is in its stored form, or is what u
      had in `base`: the phone migration leaves refused numbers as typed. */
  ghost predicate Formed(base: map<int, Row>, u: int, e: Editable) {
    && (NormalPhone(e.whatsapp) || (u in base && e.whatsapp == base[u].edit.whatsapp))
    && (NormalPhone(e.emergencyNumber) || (u in base && e.emergencyNumber == base[u].edit.emergencyNumber))
    && (Lower(e.email) == e.email || (u in base && e.email == base[u].edit.email))
  }

  ghost predicate HandlerFormed(base: map<int, Row>, h: Handler) {
    (h.Loaded? || h.Writing?) ==> Formed(base, h.u, h.seen)
  }

  ghost predicate AllFormed(base: map<int, Row>, s: State) {
    && (forall u | u in s.rows :: Formed(base, u, s.rows[u].edit))
    && (forall p | p in s.procs :: HandlerFormed(base, s.procs[p]))
  }

  lemma MergeFormed(base: map<int, Row>, u: int, seen: Editable, req: Request, taken: bool)
    requires Formed(base, u, seen) && Merge(seen, req, taken).Ok?
    ensures Formed(base, u, Merge(seen, req, taken).value)
  {
    MergeEquation(seen, req, taken);
    LowerTwice(req.email);
    PhoneFormed(req.whatsapp, seen.whatsapp);
    PhoneFormed(req.emergencyNumber, seen.emergencyNumber);
  }

  lemma PhoneFormed(requested: string, current: string)
    requires MergePhone(requested, current).Some?
    ensures MergePhone(requested, current) == Some(current) || NormalPhone(MergePhone(requested, current).value)
  {
    if Phone.NormalizePhone(requested).Ok? { Phone.NormaliserSound(requested); }
  }

  lemma RegisteredFormed(base: map<int, Row>, u: int, form: Editable)
    requires Registered(form).Some?
    ensures Formed(base, u, Registered(form).value)
  {
    LowerTwice(form.email);
    Phone.NormaliserSound(form.whatsapp);
    Phone.NormaliserSound(form.emergencyNumber);
  }

  lemma StepKeepsFormed(base: map<int, Row>, s: State, a: Action)
    requires AllFormed(base, s)
    ensures AllFormed(base, Apply(s, a))
  {
    match a
    case Load(_, _, _) =>
    case Count(pid) => CountKeepsFormed(base, s, pid);
    case Write(pid) => WriteKeepsFormed(base, s, pid);
    case Alter(_, _) =>
    case Register(u, form, _) => if Registered(form).Some? { RegisteredFormed(base, u, form); }
    case Delete(_) =>
  }

  lemma CountKeepsFormed(base: map<int, Row>, s: State, pid: Pid)
    requires AllFormed(base, s)
    ensures AllFormed(base, ApplyCount(s, pid))
  {
    var t := ApplyCount(s, pid);
    forall p | p in t.procs ensures HandlerFormed(base, t.procs[p]) { assert HandlerFormed(base, s.procs[p]); }
  }

  lemma WriteKeepsFormed(base: map<int, Row>, s: State, pid: Pid)
    requires AllFormed(base, s)
    ensures AllFormed(base, ApplyWrite(s, pid))
  {
    if pid in s.procs && s.procs[pid].Writing? {
      var h := s.procs[pid];
      assert HandlerFormed(base, h);
      if Merge(h.seen, h.req, h.taken).Ok? {
        MergeFormed(base, h.u, h.seen, h.req, h.taken);
        StoreKeepsFormed(base, s, pid, h.u, Merge(h.seen, h.req, h.taken).value);
      }
    }
  }

  lemma StoreKeepsFormed(base: map<int, Row>, s: State, pid: Pid, u: int, e: Editable)
    requires AllFormed(base, s) && Formed(base, u, e)
    ensures AllFormed(base, Store(s, pid, u, e))
  {
    var t := Store(s, pid, u, e);
    forall v | v in t.rows ensures Formed(base, v, t.rows[v].edit) { assert v in s.rows; }
    forall p | p in t.procs ensures HandlerFormed(base, t.procs[p]) {
      if p != pid { assert HandlerFormed(base, s.procs[p]); }
    }
  }

  lemma {:induction false} FormedForever(base: map<int, Row>, s: State, actions: seq<Action>)
    requires AllFormed(base, s)
    ensures AllFormed(base, Run(s, actions))
    decreases |actions|
  {
    if actions != [] {
      StepKeepsFormed(base, s, actions[0]);
      FormedForever(base, Apply(s, actions[0]), actions[1..]);
    }
  }

  /** In every run that starts with no update in flight, each phone number and
      e-mail of every row is in its stored form or is the one the account
      started with, column by column and whatever other rows hold. */
  lemma RunKeepsForms(s: State, actions: seq<Action>, u: int)
    requires s.procs == map[] && u in Run(s, actions).rows
    ensures Formed(s.rows, u, Run(s, actions).rows[u].edit)
  {
    FormedForever(s.rows, s, actions);
  }

  // ---- the columns outside the whitelist ------------------------------------------------

  function Affected(kept: Protected, u: int, a: Action): Protected {
    if a.Alter? && a.u == u then Changed(kept, a.change) else kept
  }

  /** What the credential and role writes for u alone make of `kept`. */
  function Replayed(kept: Protected, u: int, actions: seq<Action>): Protected
    decreases |actions|
  {
    if actions == [] then kept
    else Replayed(Affected(kept, u, actions[0]), u, actions[1..])
  }

  /** One step's effect on the protected columns of an account. */
  lemma OneStepOnProtected(s: State, a: Action, u: int)
    requires u in s.rows && u in s.used && a != Delete(u)
    ensures u in Apply(s, a).rows && u in Apply(s, a).used
    ensures Apply(s, a).rows[u].kept == Affected(s.rows[u].kept, u, a)
  {
  }

  /** In every interleaving an account that is not deleted ends with exactly the
      role, password and TOTP columns that the writes to those columns produce
      on their own: no profile update, however stale, and no other account's
      action can undo or repeat any of them. */
  lemma {:induction false} ProtectedColumnsAreReplayed(s: State, actions: seq<Action>, u: int)
    requires u in s.rows && u in s.used && Delete(u) !in actions
    ensures u in Run(s, actions).rows && Run(s, actions).rows[u].kept == Replayed(s.rows[u].kept, u, actions)
    decreases |actions|
  {
    if actions != [] {
      OneStepOnProtected(s, actions[0], u);
      assert forall a | a in actions[1..] :: a in actions;
      ProtectedColumnsAreReplayed(Apply(s, actions[0]), actions[1..], u);
    }
  }

  // ---- when a stale write is as good as a fresh one --------------------------------------

  predicate NamesPhone(requested: string) {
    Phone.Strip(requested) != ""
  }

  /** Two loads agree on every column the request does not set. */
  predicate AgreeOutside(a: Editable, b: Editable, req: Request) {
    && (req.name != "" || a.name == b.name)
    && (req.email != "" || a.email == b.email)
    && (NamesPhone(req.whatsapp) || a.whatsapp == b.whatsapp)
    && (req.dojo != "" || a.dojo == b.dojo)
    && (req.category != "" || (a.category == b.category && a.fields == b.fields))
    && (req.rank != "" || a.rank == b.rank)
    && (req.dateOfBirth != "" || a.dateOfBirth == b.dateOfBirth)
    && (req.lastGradingDate != "" || a.lastGradingDate == b.lastGradingDate)
    && (req.medicalConditions != "" || a.medicalConditions == b.medicalConditions)
    && (req.emergencyName != "" || a.emergencyName == b.emergencyName)
    && (NamesPhone(req.emergencyNumber) || a.emergencyNumber == b.emergencyNumber)
    && (req.consentDataStore.Stated? || a.consentDataStore == b.consentDataStore)
    && (req.consentMarketing.Stated? || a.consentMarketing == b.consentMarketing)
  }

  lemma PhoneMerge(requested: string, a: string, b: string)
    requires MergePhone(requested, a).Some?
    ensures MergePhone(requested, b).Some?
    ensures MergePhone(requested, a) == MergePhone(requested, b) <==> NamesPhone(requested) || a == b
  {
  }

  /** With lower-case e-mails stored, a write computed from `seen` leaves what
      one computed from `now` would leave exactly when the two agree on every
      column the request leaves out. */
  lemma StaleMergeIsFresh(seen: Editable, now: Editable, req: Request, t1: bool, t2: bool)
    requires Lower(seen.email) == seen.email && Lower(now.email) == now.email
    requires Merge(seen, req, t1).Ok? && Merge(now, req, t2).Ok?
    ensures Merge(seen, req, t1) == Merge(now, req, t2) <==> AgreeOutside(seen, now, req)
  {
    MergeEquation(seen, req, t1);
    MergeEquation(now, req, t2);
    PhoneMerge(req.whatsapp, seen.whatsapp, now.whatsapp);
    PhoneMerge(req.emergencyNumber, seen.emergencyNumber, now.emergencyNumber);
    var a, b := Merge(seen, req, t1).value, Merge(now, req, t2).value;
    assert a.email == b.email <==> req.email != "" || seen.email == now.email;
    assert a.dateOfBirth == b.dateOfBirth <==> req.dateOfBirth != "" || seen.dateOfBirth == now.dateOfBirth;
    assert a.lastGradingDate == b.lastGradingDate <==>
        req.lastGradingDate != "" || seen.lastGradingDate == now.lastGradingDate;
  }

  /** The same update done as one statement: load, merge, check and write. */
  function Atomically(rows: map<int, Row>, u: int, req: Request): map<int, Row>
    requires u in rows
  {
    var merged := Merge(rows[u].edit, req, Taken(rows, u, req.email));
    if merged.Err? || Taken(rows, u, merged.value.email) then rows
    else rows[u := rows[u].(edit := merged.value)]
  }

  /** If the stale merge can be written, so can the fresh one, when they agree. */
  lemma AgreeingMergesAreBothFree(rows: map<int, Row>, u: int, seen: Editable, req: Request, taken: bool)
    requires UniqueEmails(rows) && u in rows
    requires Lower(seen.email) == seen.email && Lower(rows[u].edit.email) == rows[u].edit.email
    requires Merge(seen, req, taken).Ok? && !Taken(rows, u, Merge(seen, req, taken).value.email)
    ensures req.email != "" ==> !Taken(rows, u, req.email)
    ensures !Taken(rows, u, rows[u].edit.email)
  {
    MergeEquation(seen, req, taken);
    LowerTwice(req.email);
  }

  lemma AgreeingMergeSucceeds(seen: Editable, now: Editable, req: Request, t1: bool, t2: bool)
    requires Merge(seen, req, t1).Ok? && AgreeOutside(seen, now, req)
    requires ChangesEmail(now, req) ==> !t2
    ensures Merge(now, req, t2).Ok?
  {
    MergeSucceeds(seen, req, t1);
    MergeSucceeds(now, req, t2);
    PhoneMerge(req.whatsapp, seen.whatsapp, now.whatsapp);
    PhoneMerge(req.emergencyNumber, seen.emergencyNumber, now.emergencyNumber);
  }

  /** A write of an existing row is refused if its e-mail was taken meanwhile.
      Otherwise it equals the one-statement update at that moment exactly when
      the columns the request leaves out have the values they had at the load. */
  lemma WriteIsAtomicExactly(s: State, pid: Pid)
    requires UniqueEmails(s.rows) && pid in s.procs && s.procs[pid].Writing? && s.procs[pid].u in s.rows
    requires var h := s.procs[pid];
      Lower(h.seen.email) == h.seen.email && Lower(s.rows[h.u].edit.email) == s.rows[h.u].edit.email
    ensures var h := s.procs[pid]; var merged := Merge(h.seen, h.req, h.taken);
      merged.Ok? && Taken(s.rows, h.u, merged.value.email) ==> ApplyWrite(s, pid).rows == s.rows
    ensures var h := s.procs[pid]; var merged := Merge(h.seen, h.req, h.taken);
      merged.Ok? && !Taken(s.rows, h.u, merged.value.email) ==>
        (ApplyWrite(s, pid).rows == Atomically(s.rows, h.u, h.req) <==> AgreeOutside(h.seen, s.rows[h.u].edit, h.req))
  {
    var h := s.procs[pid];
    var merged := Merge(h.seen, h.req, h.taken);
    if merged.Ok? && !Taken(s.rows, h.u, merged.value.email) {
      StoredIsAtomicExactly(s.rows, h.u, h.seen, h.req, h.taken);
    }
  }

  /** An update about to write has merged successfully, in every run. */
  lemma {:induction false} WritersHaveMerged(s: State, actions: seq<Action>, p: Pid)
    requires forall q | q in s.procs && s.procs[q].Writing? :: Merged(s.procs[q])
    ensures var t := Run(s, actions); p in t.procs && t.procs[p].Writing? ==> Merged(t.procs[p])
    decreases |actions|
  {
    if actions != [] {
      var t := Apply(s, actions[0]);
      forall q | q in t.procs && t.procs[q].Writing? ensures Merged(t.procs[q]) { StepHasMerged(s, actions[0], q); }
      WritersHaveMerged(t, actions[1..], p);
    }
  }

  lemma StepHasMerged(s: State, a: Action, q: Pid)
    requires q in s.procs && s.procs[q].Writing? ==> Merged(s.procs[q])
    ensures var t := Apply(s, a); q in t.procs && t.procs[q].Writing? ==> Merged(t.procs[q])
  {
  }

  predicate Merged(h: Handler)
    requires h.Writing?
  {
    Merge(h.seen, h.req, h.taken).Ok?
  }

  lemma StoredIsAtomicExactly(rows: map<int, Row>, u: int, seen: Editable, req: Request, taken: bool)
    requires UniqueEmails(rows) && u in rows
    requires Lower(seen.email) == seen.email && Lower(rows[u].edit.email) == rows[u].edit.email
    requires Merge(seen, req, taken).Ok? && !Taken(rows, u, Merge(seen, req, taken).value.email)
    ensures rows[u := rows[u].(edit := Merge(seen, req, taken).value)] == Atomically(rows, u, req) <==>
        AgreeOutside(seen, rows[u].edit, req)
  {
    var row := rows[u];
    var t := Taken(rows, u, req.email);
    var stale, current := Merge(seen, req, taken), Merge(row.edit, req, t);
    AgreeingMergesAreBothFree(rows, u, seen, req, taken);
    assert rows[u := row.(edit := stale.value)][u] == row.(edit := stale.value);
    if current.Ok? {
      StaleMergeIsFresh(seen, row.edit, req, taken, t);
      MergeEquation(row.edit, req, t);
      assert !Taken(rows, u, current.value.email);
    } else {
      if AgreeOutside(seen, row.edit, req) {
        AgreeingMergeSucceeds(seen, row.edit, req, taken, t);
      }
      if stale.value == row.edit {
        MergeIdempotent(seen, req, taken, t);
      }
    }
  }

  /** Load, conflict count and write with nothing in between are that statement. */
  lemma UndisturbedIsAtomic(s: State, pid: Pid, u: int, req: Request)
    requires pid !in s.procs && u in s.rows
    ensures ApplyWrite(ApplyCount(ApplyLoad(s, pid, u, req), pid), pid).rows == Atomically(s.rows, u, req)
  {
    var s1 := ApplyLoad(s, pid, u, req);
    assert s1.procs[pid] == Loaded(u, s.rows[u].edit, req);
    var taken := Taken(s.rows, u, req.email);
    var merged := Merge(s.rows[u].edit, req, taken);
    var s2 := ApplyCount(s1, pid);
    if merged.Ok? {
      assert s2.procs[pid] == Writing(u, s.rows[u].edit, req, taken);
      assert ApplyWrite(s2, pid) == Store(s2, pid, u, merged.value);
    }
  }

  // ---- and when it is not -------------------------------------------------------------

  const NO_CHANGE :=
    Request("", "", "", "", "", CategoryFields("", "", "", "", ""), "", "", "", "", "", "", Unstated, Unstated)

  function TwoEdits(u: int, p: Pid, q: Pid, name: string, dojo: string): seq<Action> {
    [Load(p, u, NO_CHANGE.(name := name)), Load(q, u, NO_CHANGE.(dojo := dojo))]
    + ([Count(p), Write(p)] + ([Count(q), Write(q)] + []))
  }

  /** u exists, keeps the category rule, and shares its e-mail with nobody. */
  ghost predicate EditableAlone(rows: map<int, Row>, u: int) {
    u in rows && CategoryRule(rows[u].edit) && !Taken(rows, u, rows[u].edit.email)
  }

  lemma NoChangeMerges(e: Editable, name: string, dojo: string, taken: bool)
    requires CategoryRule(e) && name != "" && dojo != ""
    ensures Merge(e, NO_CHANGE.(name := name), taken) == Ok(e.(name := name))
    ensures Merge(e, NO_CHANGE.(dojo := dojo), taken) == Ok(e.(dojo := dojo))
  {
  }

  /** One update whose merge succeeds whatever the conflict count was. */
  lemma CountThenWrite(s: State, p: Pid, e: Editable)
    requires p in s.procs && s.procs[p].Loaded? && s.procs[p].u in s.rows
    requires forall taken :: Merge(s.procs[p].seen, s.procs[p].req, taken) == Ok(e)
    requires !Taken(s.rows, s.procs[p].u, e.email)
    ensures var u := s.procs[p].u;
      ApplyWrite(ApplyCount(s, p), p)
           == s.(rows := s.rows[u := s.rows[u].(edit := e)], procs := s.procs[p := Finished(Updated)])
  {
    var h := s.procs[p];
    var t := ApplyCount(s, p);
    assert t.procs[p] == Writing(h.u, h.seen, h.req, Taken(s.rows, h.u, h.req.email));
    assert t.procs[p := Finished(Updated)] == s.procs[p := Finished(Updated)];
  }

  lemma RunTwo(s: State, a: Action, b: Action, rest: seq<Action>)
    ensures Run(s, [a, b] + rest) == Run(Apply(Apply(s, a), b), rest)
  {
    assert ([a, b] + rest)[1..] == [b] + rest && ([b] + rest)[1..] == rest;
    assert Run(s, [a, b] + rest) == Run(Apply(s, a), [b] + rest);
  }

  lemma FirstIsOverwritten(s: State, u: int, p: Pid, q: Pid, name: string, dojo: string)
    requires EditableAlone(s.rows, u) && p != q && name != "" && dojo != ""
    requires p in s.procs && s.procs[p] == Loaded(u, s.rows[u].edit, NO_CHANGE.(name := name))
    requires q in s.procs && s.procs[q] == Loaded(u, s.rows[u].edit, NO_CHANGE.(dojo := dojo))
    ensures var s4 := ApplyWrite(ApplyCount(s, p), p);
      ApplyWrite(ApplyCount(s4, q), q)
           == s.(rows := s.rows[u := s.rows[u].(edit := s.rows[u].edit.(dojo := dojo))],
               procs := s.procs[p := Finished(Updated)][q := Finished(Updated)])
  {
    var e := s.rows[u].edit;
    forall taken
      ensures Merge(e, NO_CHANGE.(name := name), taken) == Ok(e.(name := name))
      ensures Merge(e, NO_CHANGE.(dojo := dojo), taken) == Ok(e.(dojo := dojo))
    {
      NoChangeMerges(e, name, dojo, taken);
    }
    CountThenWrite(s, p, e.(name := name));
    var s4 := ApplyWrite(ApplyCount(s, p), p);
    CountThenWrite(s4, q, e.(dojo := dojo));
    assert s4.rows[u := s4.rows[u].(edit := e.(dojo := dojo))] == s.rows[u := s.rows[u].(edit := e.(dojo := dojo))];
  }

  /** Two edits of different columns from loads that both precede the first
      write: both are answered as done, and the first one is lost. */
  lemma LostUpdate(s: State, u: int, p: Pid, q: Pid, name: string, dojo: string)
    requires EditableAlone(s.rows, u) && p !in s.procs && q !in s.procs && p != q
    requires name != "" && dojo != ""
    ensures var t := Run(s, TwoEdits(u, p, q, name, dojo));
      && p in t.procs && t.procs[p] == Finished(Updated)
      && q in t.procs && t.procs[q] == Finished(Updated)
      && t.rows == s.rows[u := s.rows[u].(edit := s.rows[u].edit.(dojo := dojo))]
  {
    var first, second := NO_CHANGE.(name := name), NO_CHANGE.(dojo := dojo);
    var s1 := ApplyLoad(s, p, u, first);
    var s2 := ApplyLoad(s1, q, u, second);
    FirstIsOverwritten(s2, u, p, q, name, dojo);
    var s4 := ApplyWrite(ApplyCount(s2, p), p);
    RunTwo(s, Load(p, u, first), Load(q, u, second), [Count(p), Write(p)] + ([Count(q), Write(q)] + []));
    RunTwo(s2, Count(p), Write(p), [Count(q), Write(q)] + []);
    RunTwo(s4, Count(q), Write(q), []);
  }
}
