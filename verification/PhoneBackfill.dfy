/** migrations/000007_phone_e164.up.sql: the one-off UPDATE that rewrites both
    phone columns with a CASE expression meant to agree with NormalizePhone. */
module PhoneBackfill {
  import opened Outcomes
  import opened Patterns
  import Phone

  // ---- the SQL, in its own control flow --------------------------------------

  const SEPARATOR_CLASS: seq<char> := [' ', '.', '(', ')', '-', '\U{00A0}']

  /** regexp_replace(s, '[ .()\-\u00a0]', '', 'g') */
  function RemoveSeparators(s: string): string {
    if s == "" then ""
    else (if s[0] in SEPARATOR_CLASS then "" else [s[0]]) + RemoveSeparators(s[1..])
  }

  /** regexp_replace(s, '^(\+?62)0', '\1') */
  function RemoveTrunkZero(s: string): string {
    if "+620" <= s then "+62" + s[4..]
    else if "620" <= s then "62" + s[3..]
    else s
  }

  const SUBSCRIBER_SQL: seq<Atom> := [Atom(Between('2', '9'), 1, 1), Atom(Between('0', '9'), 7, 11)]

  /** The CASE expression: `v` is the cleaned value, `original` the stored one. */
  function Recode(v: string, original: Option<string>): Option<string> {
    if Matches(Literal("+62") + SUBSCRIBER_SQL, v) then Some(v)
    else if MatchesPrefix(Literal("+62"), v) then original
    else if Matches(Literal("+") + [Atom(Between('1', '9'), 1, 1), Atom(Between('0', '9'), 7, 14)], v) then Some(v)
    else if Matches(Literal("62") + SUBSCRIBER_SQL, v) then Some("+" + v)
    else if Matches(Literal("0") + SUBSCRIBER_SQL, v) then Some("+62" + v[1..])
    else original
  }

  /** The new value of one column; None is SQL NULL. */
  function Backfilled(stored: Option<string>): Option<string> {
    var coalesced := match stored case None => "" case Some(s) => s;
    Recode(RemoveTrunkZero(RemoveSeparators(coalesced)), stored)
  }

  datatype PhoneRow = PhoneRow(whatsapp: Option<string>, emergency: Option<string>)

  function NewRow(r: PhoneRow): PhoneRow {
    PhoneRow(Backfilled(r.whatsapp), Backfilled(r.emergency))
  }

  /** users.… IS DISTINCT FROM c.… on either column: the rows the UPDATE writes. */
  predicate Distinct(r: PhoneRow) {
    r.whatsapp != NewRow(r).whatsapp || r.emergency != NewRow(r).emergency
  }

  function UpdatedRow(r: PhoneRow): PhoneRow {
    if Distinct(r) then NewRow(r) else r
  }

  /** UPDATE users SET ...: one new row for each old one. */
  function UpdateAll(rows: map<int, PhoneRow>, rewrite: PhoneRow -> PhoneRow): map<int, PhoneRow> {
    map id | id in rows :: rewrite(rows[id])
  }

  /** The whole migration. */
  function Migrate(rows: map<int, PhoneRow>): map<int, PhoneRow> {
    UpdateAll(rows, r => UpdatedRow(r))
  }

  // ---- agreement with the application ------------------------------------------

  lemma {:induction false} SameSeparators(s: string)
    ensures RemoveSeparators(s) == Phone.Strip(s)
  {
    if s != "" { SameSeparators(s[1..]); }
  }

  /** The CASE expression with its patterns read out. */
  lemma {:induction false} RecodeMeaning(v: string, original: Option<string>)
    ensures Recode(v, original) ==
      if "+62" <= v then if Phone.Subscriber(v[3..]) then Some(v) else original
      else if "+" <= v then if Phone.ForeignNumber(v[1..]) then Some(v) else original
      else if "62" <= v && Phone.Subscriber(v[2..]) then Some("+" + v)
      else if "0" <= v && Phone.Subscriber(v[1..]) then Some("+62" + v[1..])
      else original
  {
    MatchesLiteral("+62", SUBSCRIBER_SQL, v);
    PrefixLiteral("+62", v);
    MatchesLiteral("+", Phone.GENERIC, v);
    MatchesLiteral("62", SUBSCRIBER_SQL, v);
    MatchesLiteral("0", SUBSCRIBER_SQL, v);
    if "+62" <= v { Phone.SubscriberPattern(v[3..]); }
    if "+" <= v { Phone.GenericPattern(v[1..]); }
    if "62" <= v { Phone.SubscriberPattern(v[2..]); }
    if "0" <= v { Phone.SubscriberPattern(v[1..]); }
  }

  /** What the backfill should store: the accepted form, or the value as typed. */
  function Accepted(r: Result<string, Phone.PhoneError>, original: Option<string>): Option<string> {
    match r case Ok(e) => Some(e) case Err(_) => original
  }

  lemma {:induction false} AgreesAfterPlus(t: string, original: Option<string>)
    requires "+" <= t
    ensures Recode(RemoveTrunkZero(t), original) == Accepted(Phone.CheckShape(t[1..]), original)
  {
    var v := RemoveTrunkZero(t);
    RecodeMeaning(v, original);
    Phone.CheckShapeMeaning(t[1..]);
    assert t == "+" + t[1..];
    if "+620" <= t {
      assert t[1..][3..] == t[4..] && v[3..] == t[4..];
    } else if "+62" <= t {
      assert t[1..][2..] == t[3..];
    }
  }

  lemma {:induction false} AgreesAfterZero(t: string, original: Option<string>)
    requires "0" <= t
    ensures Recode(RemoveTrunkZero(t), original)
         == if "00" <= t then original else Accepted(Phone.CheckShape("62" + t[1..]), original)
  {
    RecodeMeaning(t, original);
    Phone.CheckShapeMeaning("62" + t[1..]);
    assert ("62" + t[1..])[2..] == t[1..];
    assert "+" + ("62" + t[1..]) == "+62" + t[1..];
  }

  lemma {:induction false} AgreesAfterCountryCode(t: string, original: Option<string>)
    requires t != "" && !("+" <= t) && !("0" <= t)
    ensures Recode(RemoveTrunkZero(t), original)
         == if "62" <= t then Accepted(Phone.CheckShape(t), original) else original
  {
    var v := RemoveTrunkZero(t);
    RecodeMeaning(v, original);
    Phone.CheckShapeMeaning(t);
    if "620" <= t {
      assert v[2..] == t[3..];
      assert "+" + v == "+62" + t[3..];
    }
  }

  /** Go and SQL agree on one value (an accepted number is rewritten to the
      normaliser's result, a refused one is left exactly as typed) if and only
      if the value is empty or holds more than separators. */
  lemma {:induction false} BackfillAgrees(s: string)
    ensures Backfilled(Some(s)) == Accepted(Phone.NormalizePhone(s), Some(s))
       <==> (s == "" || Phone.Strip(s) != "")
  {
    var t := Phone.Strip(s);
    SameSeparators(s);
    if "+" <= t { AgreesAfterPlus(t, Some(s)); }
    else if "0" <= t { AgreesAfterZero(t, Some(s)); }
    else if t != "" { AgreesAfterCountryCode(t, Some(s)); }
    else { RecodeMeaning(t, Some(s)); }
  }

  lemma NullStaysNull()
    ensures Backfilled(None) == None
  {
    RecodeMeaning("", None);
    assert RemoveTrunkZero(RemoveSeparators("")) == "";
  }

  /** What a column can hold after the backfill: NULL, a fixed point of the
      normaliser, or a value the application refuses. */
  predicate Settled(column: Option<string>) {
    match column
    case None => true
    case Some(s) => Phone.Strip(s) == "" || Phone.NormalizePhone(s) == Ok(s) || Phone.NormalizePhone(s).Err?
  }

  lemma {:induction false} BackfillSettles(column: Option<string>)
    ensures Settled(Backfilled(column))
    ensures Settled(column) <==> Backfilled(column) == column
  {
    match column
    case None => NullStaysNull();
    case Some(s) =>
      BackfillAgrees(s);
      if Phone.Strip(s) == "" {
        SameSeparators(s);
        RecodeMeaning(RemoveTrunkZero(Phone.Strip(s)), column);
      } else if Phone.NormalizePhone(s).Ok? {
        Phone.NormaliserSound(s);
      }
  }

  /** A migrated row: a second run does not write it, and both columns are settled. */
  predicate AfterMigration(r: PhoneRow) {
    !Distinct(r) && Settled(r.whatsapp) && Settled(r.emergency)
  }

  lemma {:induction false} RowSettles(r: PhoneRow)
    ensures UpdatedRow(UpdatedRow(r)) == UpdatedRow(r) && AfterMigration(UpdatedRow(r))
  {
    assert UpdatedRow(r) == NewRow(r);
    BackfillSettles(r.whatsapp);
    BackfillSettles(r.emergency);
    BackfillSettles(NewRow(r).whatsapp);
    BackfillSettles(NewRow(r).emergency);
  }

  /** What the migration owes one column: NULL stays, and so does a value that is
      empty or separators only; every other value becomes the application's form
      of it, or stays as typed where the application has none. */
  ghost predicate Rewritten(before: Option<string>, after: Option<string>) {
    match before
    case None => after == None
    case Some(s) =>
      if forall c | c in s :: c in [' ', '\U{00A0}', '-', '.', '(', ')'] then after == before
      else match Phone.NormalizePhone(s) case Ok(e) => after == Some(e) case Err(_) => after == before
  }

  lemma {:induction false} ColumnRewritten(column: Option<string>)
    ensures Rewritten(column, Backfilled(column))
  {
    match column
    case None => NullStaysNull();
    case Some(s) =>
      BackfillAgrees(s);
      Phone.EmptyPreimages(s);
      if Phone.Strip(s) == "" {
        SameSeparators(s);
        RecodeMeaning("", column);
      }
  }

  /** The migration gives each row of the table, and no other, both its columns
      as they should be, each from its own old value. */
  lemma {:induction false} MigrationRewrites(rows: map<int, PhoneRow>)
    ensures Migrate(rows).Keys == rows.Keys
    ensures forall id | id in rows :: Rewritten(rows[id].whatsapp, Migrate(rows)[id].whatsapp)
    ensures forall id | id in rows :: Rewritten(rows[id].emergency, Migrate(rows)[id].emergency)
  {
    forall id | id in rows
      ensures Rewritten(rows[id].whatsapp, Migrate(rows)[id].whatsapp)
      ensures Rewritten(rows[id].emergency, Migrate(rows)[id].emergency)
    {
      ColumnRewritten(rows[id].whatsapp);
      ColumnRewritten(rows[id].emergency);
      assert Migrate(rows)[id] == UpdatedRow(rows[id]) == NewRow(rows[id]);
    }
  }

  lemma UpdateTwice(rows: map<int, PhoneRow>, rewrite: PhoneRow -> PhoneRow, good: PhoneRow -> bool)
    requires forall r :: rewrite(rewrite(r)) == rewrite(r) && good(rewrite(r))
    ensures UpdateAll(UpdateAll(rows, rewrite), rewrite) == UpdateAll(rows, rewrite)
    ensures forall id | id in rows :: good(UpdateAll(rows, rewrite)[id])
  {
  }

  /** Running the migration a second time changes no value and writes no row,
      and afterwards the application would not rewrite any stored number. */
  lemma {:induction false} MigrationIdempotent(rows: map<int, PhoneRow>)
    ensures Migrate(rows).Keys == rows.Keys
    ensures Migrate(Migrate(rows)) == Migrate(rows)
    ensures forall id | id in rows :: AfterMigration(Migrate(rows)[id])
  {
    var rewrite := r => UpdatedRow(r);
    var good := r => AfterMigration(r);
    forall r
      ensures rewrite(rewrite(r)) == rewrite(r) && good(rewrite(r))
    {
      RowSettles(r);
    }
    UpdateTwice(rows, rewrite, good);
    assert forall id | id in rows :: good(UpdateAll(rows, rewrite)[id]);
  }
}
