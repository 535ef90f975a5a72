/** The profile machine statement by statement: what one action makes of each row
    and of each update request, column by column. */
module ProfileSteps {
  import opened Outcomes
  import opened Ids
  import opened Profile
  import opened ProfileRuns
  import Phone

  /** What a registration form is stored as, if it is in order. */
  ghost predicate RegisteredAs(form: Editable, e: Editable) {
    && form.name != "" && form.email != "" && IsRank(form.rank) && form.consentDataStore
    && InSmallLetters(form.email, e.email)
    && Phone.NormalizePhone(form.whatsapp) == Ok(e.whatsapp)
    && Phone.NormalizePhone(form.emergencyNumber) == Ok(e.emergencyNumber)
    && e.category == (if form.category == "" then "regular" else form.category)
    && CategoryOf(Filled(form.fields)) == Some(e.category)
    && e == form.(email := e.email, whatsapp := e.whatsapp, emergencyNumber := e.emergencyNumber,
                  category := e.category)
  }

  lemma RegisteredExactly(form: Editable, e: Editable)
    ensures Registered(form) == Some(e) <==> RegisteredAs(form, e)
  {
    LowerMeans(form.email, form.email);
    CategoryRuleIsATable(if form.category == "" then "regular" else form.category, form.fields);
  }

  /** The registration goes through: a new id, a form in order, a free e-mail. */
  ghost predicate Admits(s: State, u: int, form: Editable) {
    u !in s.used && (exists e :: RegisteredAs(form, e)) && !HeldByAnother(s.rows, u, form.email)
  }

  lemma RegisterStep(s: State, u: int, form: Editable, hash: string)
    ensures var t := Apply(s, Register(u, form, hash));
      if !Admits(s, u, form) then t == s
      else
        && t.procs == s.procs && t.used == s.used + {u} && u in t.rows && t.rows == s.rows[u := t.rows[u]]
        && RegisteredAs(form, t.rows[u].edit) && t.rows[u].kept == Protected("new", hash, None, false, 0)
  {
    if e :| RegisteredAs(form, e) {
      RegisteredExactly(form, e);
      LowerTwice(form.email);
      TakenMeans(s.rows, u, form.email);
      assert Registered(form) == Some(e);
      assert e.email == Lower(form.email);
    } else if Registered(form).Some? {
      RegisteredExactly(form, Registered(form).value);
    }
  }

  /** Update p for u comes to its UPDATE, with a merge that has succeeded. */
  ghost predicate AboutToWrite(s: State, a: Action, u: int) {
    && a.Write? && a.pid in s.procs && s.procs[a.pid].Writing? && s.procs[a.pid].u == u
    && Acceptable(s.procs[a.pid].seen, s.procs[a.pid].req, s.procs[a.pid].taken)
  }

  /** That UPDATE leaves the row as the load was, edited as asked, in the
      whitelisted columns; or it is refused because another row has the e-mail. */
  ghost predicate WritesAsAsked(s: State, t: State, p: Pid)
    requires p in s.procs && s.procs[p].Writing?
  {
    var h := s.procs[p];
    exists e :: EditedAs(h.seen, h.req, e) && StoredOrRefused(s, t, p, h.u, e)
  }

  ghost predicate StoredOrRefused(s: State, t: State, p: Pid, u: int, e: Editable) {
    if u in s.rows && HeldByAnother(s.rows, u, e.email) then t == s.(procs := s.procs[p := Finished(Refused(Conflict))])
    else
      && t.procs == s.procs[p := Finished(Updated)] && t.used == s.used
      && t.rows == if u in s.rows then s.rows[u := Row(e, s.rows[u].kept)] else s.rows
  }

  lemma StoreStep(s: State, p: Pid, u: int, e: Editable)
    ensures StoredOrRefused(s, Store(s, p, u, e), p, u, e)
  {
    TakenMeans(s.rows, u, e.email);
  }

  lemma WriteStep(s: State, p: Pid)
    requires p in s.procs && s.procs[p].Writing? && AboutToWrite(s, Write(p), s.procs[p].u)
    ensures WritesAsAsked(s, Apply(s, Write(p)), p)
  {
    var h := s.procs[p];
    MergeSucceedsExactly(h.seen, h.req, h.taken);
    MergedColumns(h.seen, h.req, h.taken);
    var e := Merge(h.seen, h.req, h.taken).value;
    StoreStep(s, p, h.u, e);
    assert Apply(s, Write(p)) == Store(s, p, h.u, e);
    assert EditedAs(h.seen, h.req, e) && StoredOrRefused(s, Apply(s, Write(p)), p, h.u, e);
  }

  /** The write to the columns outside the whitelist: the one it names. */
  ghost predicate ChangedTo(before: Protected, c: Change, after: Protected) {
    match c
    case SetRole(role) => after == before.(role := role)
    case SetPassword(hash) => after == before.(passwordHash := hash)
    case SetTotp(secret, enabled, counter) =>
      after == Protected(before.role, before.passwordHash, secret, enabled, counter)
    case AdvanceCounter(counter) =>
      after == if before.totpLastCounter < counter then before.(totpLastCounter := counter) else before
  }

  /** A row's whitelisted columns change only by an update that writes it, its
      other columns only by a change of them, it disappears only by a deletion
      and comes only by a registration. */
  lemma RowStep(s: State, a: Action, v: int)
    requires v in s.rows ==> v in s.used
    ensures v in Apply(s, a).rows ==> v in Apply(s, a).used
    ensures var rows' := Apply(s, a).rows;
      if v !in s.rows then v in rows' ==> a.Register? && a.u == v
      else
        && (v in rows' <==> a != Delete(v))
        && (v in rows' ==>
              && (rows'[v].edit != s.rows[v].edit ==> AboutToWrite(s, a, v))
              && (if a.Alter? && a.u == v then ChangedTo(s.rows[v].kept, a.change, rows'[v].kept)
                  else rows'[v].kept == s.rows[v].kept))
  {
    if a.Write? && a.pid in s.procs && s.procs[a.pid].Writing? { RowAtWrite(s, a, v); }
  }

  lemma RowAtWrite(s: State, a: Action, v: int)
    requires a.Write? && a.pid in s.procs && s.procs[a.pid].Writing?
    ensures var t := Apply(s, a);
      && t.used == s.used && (v in t.rows <==> v in s.rows)
      && (v in s.rows ==> t.rows[v].kept == s.rows[v].kept)
      && (v in s.rows && t.rows[v].edit != s.rows[v].edit ==> AboutToWrite(s, a, v))
  {
    var h := s.procs[a.pid];
    MergeSucceedsExactly(h.seen, h.req, h.taken);
  }

  /** A load sees the row as it is; the conflict count is of the moment, and with
      it the request is refused or goes on to its UPDATE. */
  lemma RequestStep(s: State, p: Pid, u: int, req: Request)
    ensures p !in s.procs ==>
      Apply(s, Load(p, u, req))
        == s.(procs := s.procs[p := if u in s.rows then Loaded(u, s.rows[u].edit, req) else Finished(Missing)])
    ensures p in s.procs && s.procs[p].Loaded? ==>
      var h, t := s.procs[p], Apply(s, Count(p)); var taken := HeldByAnother(s.rows, h.u, h.req.email);
      && t == s.(procs := t.procs) && p in t.procs && t.procs == s.procs[p := t.procs[p]]
      && (Acceptable(h.seen, h.req, taken) ==> t.procs[p] == Writing(h.u, h.seen, h.req, taken))
      && (!Acceptable(h.seen, h.req, taken) ==>
            Merge(h.seen, h.req, taken).Err? && t.procs[p] == Finished(Refused(Merge(h.seen, h.req, taken).error)))
  {
    if p in s.procs && s.procs[p].Loaded? {
      var h := s.procs[p];
      TakenMeans(s.rows, h.u, h.req.email);
      MergeSucceedsExactly(h.seen, h.req, Taken(s.rows, h.u, h.req.email));
    }
  }
}
