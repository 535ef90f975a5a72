/** internal/types/user.go's category rule, ParseDate, and
    internal/auth/database.go's ApplyProfileUpdate: the merge of a request into
    a loaded user, and the write of the whitelisted columns. */
module Profile {
  import opened Outcomes
  import Phone

  // ---- the category rule ------------------------------------------------------------

  datatype CategoryFields = CategoryFields(
    university: string, faculty: string, major: string, schoolName: string, guardianName: string)

  function CategoryFieldsMissing(category: string, f: CategoryFields): bool {
    if category == "regular" then
      f.university != "" || f.faculty != "" || f.major != "" || f.schoolName != "" || f.guardianName != ""
    else if category == "student" then
      var universityPath :=
        f.university != "" && f.faculty != "" && f.major != "" && f.schoolName == "" && f.guardianName == "";
      var schoolPath :=
        f.schoolName != "" && f.university == "" && f.faculty == "" && f.major == "" && f.guardianName == "";
      !(universityPath || schoolPath)
    else if category == "kids" then
      f.guardianName == "" || f.university != "" || f.faculty != "" || f.major != "" || f.schoolName != ""
    else true
  }

  datatype FieldName = University | Faculty | Major | SchoolName | GuardianName

  function Filled(f: CategoryFields): set<FieldName> {
    (if f.university != "" then {University} else {}) + (if f.faculty != "" then {Faculty} else {})
    + (if f.major != "" then {Major} else {}) + (if f.schoolName != "" then {SchoolName} else {})
    + (if f.guardianName != "" then {GuardianName} else {})
  }

  /** The rule as a table: which fields are filled decides the category. */
  function CategoryOf(filled: set<FieldName>): Option<string> {
    if filled == {} then Some("regular")
    else if filled == {University, Faculty, Major} || filled == {SchoolName} then Some("student")
    else if filled == {GuardianName} then Some("kids")
    else None
  }

  lemma CategoryRuleIsATable(category: string, f: CategoryFields)
    ensures !CategoryFieldsMissing(category, f) <==> CategoryOf(Filled(f)) == Some(category)
  {
  }

  // ---- dates ------------------------------------------------------------------------

  datatype Date = Date(year: nat, month: nat, day: nat)

  /** Go's zero time */
  const NO_DATE := Date(1, 1, 1)

  predicate IsDigit(c: char) { '0' <= c <= '9' }

  function DigitValue(c: char): nat
    requires IsDigit(c)
  {
    c as int - '0' as int
  }

  function Number(s: string): nat
    requires forall i | 0 <= i < |s| :: IsDigit(s[i])
  {
    if s == "" then 0 else 10 * Number(s[..|s| - 1]) + DigitValue(s[|s| - 1])
  }

  function DaysIn(year: nat, month: nat): nat {
    if month == 2 then (if year % 4 == 0 && (year % 100 != 0 || year % 400 == 0) then 29 else 28)
    else if month == 4 || month == 6 || month == 9 || month == 11 then 30
    else 31
  }

  /** ParseDate: the zero date for "", otherwise exactly YYYY-MM-DD. */
  function ParseDate(s: string): Option<Date> {
    if s == "" then Some(NO_DATE)
    else if |s| != 10 || s[4] != '-' || s[7] != '-' then None
    else if !(forall i | 0 <= i < 10 :: i == 4 || i == 7 || IsDigit(s[i])) then None
    else
      var year, month, day := Number(s[..4]), Number(s[5..7]), Number(s[8..]);
      if 1 <= month <= 12 && 1 <= day <= DaysIn(year, month) then Some(Date(year, month, day)) else None
  }

  /** A day of the Gregorian calendar. */
  ghost predicate IsDay(d: Date) {
    && 1 <= d.day
    && match d.month
       case 1 | 3 | 5 | 7 | 8 | 10 | 12 => d.day <= 31
       case 4 | 6 | 9 | 11 => d.day <= 30
       case 2 => d.day <= 28 || (d.day == 29 && d.year % 4 == 0 && (d.year % 100 != 0 || d.year % 400 == 0))
       case _ => false
  }

  function At(s: string, i: nat): int
    requires i < |s|
  {
    s[i] as int - 48
  }

  /** s is the date written YYYY-MM-DD. */
  ghost predicate Spells(s: string, d: Date) {
    && |s| == 10 && s[4] == '-' && s[7] == '-'
    && (forall i | 0 <= i < 10 && i != 4 && i != 7 :: 0 <= At(s, i) <= 9)
    && d.year == 1000 * At(s, 0) + 100 * At(s, 1) + 10 * At(s, 2) + At(s, 3)
    && d.month == 10 * At(s, 5) + At(s, 6)
    && d.day == 10 * At(s, 8) + At(s, 9)
  }

  lemma TwoDigits(s: string)
    requires |s| == 2 && IsDigit(s[0]) && IsDigit(s[1])
    ensures Number(s) == 10 * At(s, 0) + At(s, 1)
  {
    assert s[..1] == [s[0]] && [s[0]][..0] == "";
    assert Number(s[..1]) == 10 * Number("") + DigitValue(s[0]);
  }

  lemma FourDigits(s: string)
    requires |s| == 4 && forall i | 0 <= i < 4 :: IsDigit(s[i])
    ensures Number(s) == 1000 * At(s, 0) + 100 * At(s, 1) + 10 * At(s, 2) + At(s, 3)
  {
    TwoDigits(s[..2]);
    assert s[..3][..2] == s[..2];
    assert Number(s[..3]) == 10 * Number(s[..2]) + DigitValue(s[2]);
  }

  /** A non-empty text is a date exactly when it spells a day of the calendar. */
  lemma ParseDateExactly(s: string, d: Date)
    requires s != ""
    ensures ParseDate(s) == Some(d) <==> IsDay(d) && Spells(s, d)
  {
    if |s| == 10 && forall i | 0 <= i < 10 :: i == 4 || i == 7 || IsDigit(s[i]) {
      FourDigits(s[..4]);
      TwoDigits(s[5..7]);
      TwoDigits(s[8..]);
    }
    assert forall i | 0 <= i < |s| :: IsDigit(s[i]) <==> 0 <= At(s, i) <= 9;
  }

  // ---- emails: ASCII, compared and stored in lower case --------------------------------

  function LowerChar(c: char): char {
    if 'A' <= c <= 'Z' then (c as int + 32) as char else c
  }

  function Lower(s: string): string {
    seq(|s|, i requires 0 <= i < |s| => LowerChar(s[i]))
  }

  predicate EqualFold(a: string, b: string) {
    Lower(a) == Lower(b)
  }

  lemma LowerTwice(s: string)
    ensures Lower(Lower(s)) == Lower(s)
  {
  }

  /** r is s with every capital ASCII letter made small. */
  ghost predicate InSmallLetters(s: string, r: string) {
    && |r| == |s|
    && forall i | 0 <= i < |s| :: r[i] as int == if 65 <= s[i] as int <= 90 then s[i] as int + 32 else s[i] as int
  }

  /** The same text up to the case of ASCII letters. */
  ghost predicate SameLetters(a: string, b: string) {
    |a| == |b| && forall i | 0 <= i < |a| :: SameLetter(a[i], b[i])
  }

  ghost predicate SameLetter(c: char, d: char) {
    || c == d
    || (65 <= c as int <= 90 && d as int == c as int + 32)
    || (65 <= d as int <= 90 && c as int == d as int + 32)
  }

  lemma LowerMeans(a: string, b: string)
    ensures InSmallLetters(a, Lower(a))
    ensures Lower(a) == Lower(b) <==> SameLetters(a, b)
    ensures forall r | InSmallLetters(a, r) :: r == Lower(a)
  {
    if SameLetters(a, b) {
      forall i | 0 <= i < |a| ensures Lower(a)[i] == Lower(b)[i] { assert SameLetter(a[i], b[i]); }
    }
    if Lower(a) == Lower(b) {
      assert |Lower(a)| == |a| && |Lower(b)| == |b|;
      forall i | 0 <= i < |a| ensures SameLetter(a[i], b[i]) { assert Lower(a)[i] == Lower(b)[i]; }
    }
    forall r | InSmallLetters(a, r) ensures r == Lower(a) { assert forall i | 0 <= i < |a| :: r[i] == Lower(a)[i]; }
  }

  // ---- ranks ----------------------------------------------------------------------------

  /** No rank, the ten kyu grades and the five dan grades. */
  ghost predicate IsRank(r: string) {
    || r == "" || r == "1st Kyu" || r == "2nd Kyu" || r == "3rd Kyu" || r == "4th Kyu" || r == "5th Kyu"
    || r == "6th Kyu" || r == "7th Kyu" || r == "8th Kyu" || r == "9th Kyu" || r == "10th Kyu"
    || r == "Shodan (1st Dan)" || r == "Nidan (2nd Dan)" || r == "Sandan (3rd Dan)"
    || r == "Yondan (4th Dan)" || r == "Godan (5th Dan)"
  }

  // ---- the merge ----------------------------------------------------------------------

  /** The whitelisted columns. */
  datatype Editable = Editable(
    name: string, email: string, whatsapp: string, dojo: string,
    category: string, fields: CategoryFields,
    rank: string, dateOfBirth: Date, lastGradingDate: Date,
    medicalConditions: string, emergencyName: string, emergencyNumber: string,
    consentDataStore: bool, consentMarketing: bool)

  /** A consent box the request may leave out. */
  datatype Consent = Unstated | Stated(given: bool)

  datatype Request = Request(
    name: string, email: string, whatsapp: string, dojo: string,
    category: string, fields: CategoryFields,
    rank: string, dateOfBirth: string, lastGradingDate: string,
    medicalConditions: string, emergencyName: string, emergencyNumber: string,
    consentDataStore: Consent, consentMarketing: Consent)

  datatype UpdateError = Conflict | InvalidPhone | InvalidRank | InvalidDate | WrongCategoryFields

  const ALLOWED_RANKS: set<string> := {
    "", "10th Kyu", "9th Kyu", "8th Kyu", "7th Kyu", "6th Kyu", "5th Kyu", "4th Kyu", "3rd Kyu", "2nd Kyu", "1st Kyu",
    "Shodan (1st Dan)", "Nidan (2nd Dan)", "Sandan (3rd Dan)", "Yondan (4th Dan)", "Godan (5th Dan)"}

  /** An empty request field means no change. */
  function Or(requested: string, current: string): string {
    if requested != "" then requested else current
  }

  predicate ChangesEmail(p: Editable, req: Request) {
    req.email != "" && !EqualFold(req.email, p.email)
  }

  /** A phone field: "" and separator-only input change nothing. */
  function MergePhone(requested: string, current: string): Option<string> {
    if requested == "" then Some(current)
    else match Phone.NormalizePhone(requested)
      case Ok(e) => Some(Or(e, current))
      case Err(_) => None
  }

  function MergeDate(requested: string, current: Date): Option<Date> {
    if requested == "" then Some(current) else ParseDate(requested)
  }

  function MergeFlag(requested: Consent, current: bool): bool {
    match requested case Stated(given) => given case Unstated => current
  }

  /** Name, e-mail, whatsapp and dojo. `taken`: the e-mail conflict count was
      not zero. */
  function MergeIdentity(p: Editable, req: Request, taken: bool): Result<Editable, UpdateError> {
    var email := if ChangesEmail(p, req) then Lower(req.email) else p.email;
    var whatsapp := MergePhone(req.whatsapp, p.whatsapp);
    if ChangesEmail(p, req) && taken then Err(Conflict)
    else if whatsapp.None? then Err(InvalidPhone)
    else Ok(p.(name := Or(req.name, p.name), email := email, whatsapp := whatsapp.value, dojo := Or(req.dojo, p.dojo)))
  }

  /** The category block, which is replaced as a whole, rank and dates. */
  function MergeStanding(p: Editable, req: Request): Result<Editable, UpdateError> {
    var dob := MergeDate(req.dateOfBirth, p.dateOfBirth);
    var lgd := MergeDate(req.lastGradingDate, p.lastGradingDate);
    if req.rank != "" && req.rank !in ALLOWED_RANKS then Err(InvalidRank)
    else if dob.None? || lgd.None? then Err(InvalidDate)
    else Ok(p.(category := Or(req.category, p.category), fields := if req.category != "" then req.fields else p.fields,
               rank := Or(req.rank, p.rank), dateOfBirth := dob.value, lastGradingDate := lgd.value))
  }

  /** Medical and emergency fields, and consents. */
  function MergeContacts(p: Editable, req: Request): Result<Editable, UpdateError> {
    var emergency := MergePhone(req.emergencyNumber, p.emergencyNumber);
    if emergency.None? then Err(InvalidPhone)
    else Ok(p.(medicalConditions := Or(req.medicalConditions, p.medicalConditions),
               emergencyName := Or(req.emergencyName, p.emergencyName), emergencyNumber := emergency.value,
               consentDataStore := MergeFlag(req.consentDataStore, p.consentDataStore),
               consentMarketing := MergeFlag(req.consentMarketing, p.consentMarketing)))
  }

  /** The merged user: the three parts in turn, then the category rule on the result. */
  function Merge(p: Editable, req: Request, taken: bool): Result<Editable, UpdateError> {
    var identity := MergeIdentity(p, req, taken);
    if identity.Err? then identity
    else
      var standing := MergeStanding(identity.value, req);
      if standing.Err? then standing
      else
        var merged := MergeContacts(standing.value, req);
        if merged.Err? then merged
        else if CategoryFieldsMissing(merged.value.category, merged.value.fields) then Err(WrongCategoryFields)
        else merged
  }

  // ---- rows, and rules every stored row must satisfy -------------------------------------

  /** The columns outside the whitelist. */
  datatype Protected = Protected(
    role: string, passwordHash: string, totpSecret: Option<string>, totpEnabled: bool, totpLastCounter: int)

  datatype Row = Row(edit: Editable, kept: Protected)

  predicate CategoryRule(e: Editable) {
    !CategoryFieldsMissing(e.category, e.fields)
  }

  /** A number in the form the normaliser leaves alone. */
  predicate NormalPhone(number: string) {
    Phone.NormalizePhone(number) == Ok(number)
  }

  predicate PhonesNormal(e: Editable) {
    NormalPhone(e.whatsapp) && NormalPhone(e.emergencyNumber)
  }

  /** Whatever was loaded, a merge that succeeds satisfies the category rule,
      and keeps phone numbers in stored form. */
  lemma MergeRules(p: Editable, req: Request, taken: bool)
    requires Merge(p, req, taken).Ok?
    ensures CategoryRule(Merge(p, req, taken).value)
    ensures PhonesNormal(p) ==> PhonesNormal(Merge(p, req, taken).value)
  {
    if Phone.NormalizePhone(req.whatsapp).Ok? { Phone.NormaliserSound(req.whatsapp); }
    if Phone.NormalizePhone(req.emergencyNumber).Ok? { Phone.NormaliserSound(req.emergencyNumber); }
  }

  /** A successful merge as one record. */
  lemma MergeEquation(p: Editable, req: Request, taken: bool)
    requires Merge(p, req, taken).Ok?
    ensures MergePhone(req.whatsapp, p.whatsapp).Some? && MergePhone(req.emergencyNumber, p.emergencyNumber).Some?
    ensures MergeDate(req.dateOfBirth, p.dateOfBirth).Some? && MergeDate(req.lastGradingDate, p.lastGradingDate).Some?
    ensures Merge(p, req, taken).value == Editable(
      Or(req.name, p.name), if ChangesEmail(p, req) then Lower(req.email) else p.email,
      MergePhone(req.whatsapp, p.whatsapp).value, Or(req.dojo, p.dojo),
      Or(req.category, p.category), if req.category != "" then req.fields else p.fields,
      Or(req.rank, p.rank),
      MergeDate(req.dateOfBirth, p.dateOfBirth).value, MergeDate(req.lastGradingDate, p.lastGradingDate).value,
      Or(req.medicalConditions, p.medicalConditions), Or(req.emergencyName, p.emergencyName),
      MergePhone(req.emergencyNumber, p.emergencyNumber).value,
      MergeFlag(req.consentDataStore, p.consentDataStore), MergeFlag(req.consentMarketing, p.consentMarketing))
  {
  }

  /** When a merge succeeds, part by part. */
  lemma MergeSucceeds(p: Editable, req: Request, taken: bool)
    ensures Merge(p, req, taken).Ok? <==>
      && !(ChangesEmail(p, req) && taken)
      && MergePhone(req.whatsapp, p.whatsapp).Some? && MergePhone(req.emergencyNumber, p.emergencyNumber).Some?
      && (req.rank == "" || req.rank in ALLOWED_RANKS)
      && MergeDate(req.dateOfBirth, p.dateOfBirth).Some? && MergeDate(req.lastGradingDate, p.lastGradingDate).Some?
      && !CategoryFieldsMissing(Or(req.category, p.category), if req.category != "" then req.fields else p.fields)
  {
    var identity := MergeIdentity(p, req, taken);
    if identity.Ok? {
      var standing := MergeStanding(identity.value, req);
      if standing.Ok? {
        var merged := MergeContacts(standing.value, req);
      }
    }
  }

  // What each kind of column becomes.

  ghost predicate TextEdited(requested: string, current: string, result: string) {
    result == if requested != "" then requested else current
  }

  /** A field of separators only changes nothing. */
  ghost predicate PhoneEdited(requested: string, current: string, result: string) {
    if forall c | c in requested :: Phone.Ignored(c) then result == current
    else Phone.NormalizePhone(requested) == Ok(result)
  }

  ghost predicate EmailEdited(requested: string, current: string, result: string) {
    if requested == "" || SameLetters(requested, current) then result == current
    else InSmallLetters(requested, result)
  }

  ghost predicate DateEdited(requested: string, current: Date, result: Date) {
    if requested == "" then result == current else IsDay(result) && Spells(requested, result)
  }

  ghost predicate FlagEdited(requested: Consent, current: bool, result: bool) {
    result == if requested == Stated(true) then true else if requested == Stated(false) then false else current
  }

  /** e is p edited as req asks, column by column. */
  ghost predicate EditedAs(p: Editable, req: Request, e: Editable) {
    && TextEdited(req.name, p.name, e.name)
    && EmailEdited(req.email, p.email, e.email)
    && PhoneEdited(req.whatsapp, p.whatsapp, e.whatsapp)
    && TextEdited(req.dojo, p.dojo, e.dojo)
    && TextEdited(req.category, p.category, e.category)
    && e.fields == (if req.category != "" then req.fields else p.fields)
    && TextEdited(req.rank, p.rank, e.rank)
    && DateEdited(req.dateOfBirth, p.dateOfBirth, e.dateOfBirth)
    && DateEdited(req.lastGradingDate, p.lastGradingDate, e.lastGradingDate)
    && TextEdited(req.medicalConditions, p.medicalConditions, e.medicalConditions)
    && TextEdited(req.emergencyName, p.emergencyName, e.emergencyName)
    && PhoneEdited(req.emergencyNumber, p.emergencyNumber, e.emergencyNumber)
    && FlagEdited(req.consentDataStore, p.consentDataStore, e.consentDataStore)
    && FlagEdited(req.consentMarketing, p.consentMarketing, e.consentMarketing)
  }

  ghost predicate IsDateOrEmpty(s: string) {
    s != "" ==> exists d :: IsDay(d) && Spells(s, d)
  }

  /** The request is in order, and leaves a block that fits its category. */
  ghost predicate Acceptable(p: Editable, req: Request, taken: bool) {
    && (req.email == "" || SameLetters(req.email, p.email) || !taken)
    && Phone.NormalizePhone(req.whatsapp).Ok? && Phone.NormalizePhone(req.emergencyNumber).Ok?
    && IsRank(req.rank) && IsDateOrEmpty(req.dateOfBirth) && IsDateOrEmpty(req.lastGradingDate)
    && (if req.category != "" then CategoryOf(Filled(req.fields)) == Some(req.category)
        else CategoryOf(Filled(p.fields)) == Some(p.category))
  }

  lemma PhoneMeans(requested: string, current: string)
    ensures MergePhone(requested, current).Some? <==> Phone.NormalizePhone(requested).Ok?
    ensures forall r :: MergePhone(requested, current) == Some(r) <==>
        Phone.NormalizePhone(requested).Ok? && PhoneEdited(requested, current, r)
  {
    Phone.EmptyPreimages(requested);
  }

  lemma DateMeans(requested: string, current: Date)
    ensures MergeDate(requested, current).Some? <==> IsDateOrEmpty(requested)
    ensures forall d :: MergeDate(requested, current) == Some(d) <==> DateEdited(requested, current, d)
  {
    if requested != "" {
      forall d ensures ParseDate(requested) == Some(d) <==> IsDay(d) && Spells(requested, d) {
        ParseDateExactly(requested, d);
      }
      if MergeDate(requested, current).Some? {
        assert DateEdited(requested, current, MergeDate(requested, current).value);
      }
    }
  }

  /** What a successful merge puts in each column. */
  lemma MergedColumns(p: Editable, req: Request, taken: bool)
    requires Merge(p, req, taken).Ok?
    ensures EditedAs(p, req, Merge(p, req, taken).value)
  {
    MergeEquation(p, req, taken);
    LowerMeans(req.email, p.email);
    PhoneMeans(req.whatsapp, p.whatsapp);
    PhoneMeans(req.emergencyNumber, p.emergencyNumber);
    DateMeans(req.dateOfBirth, p.dateOfBirth);
    DateMeans(req.lastGradingDate, p.lastGradingDate);
  }

  /** That leaves no choice. */
  lemma ColumnsAreDetermined(p: Editable, req: Request, e: Editable, f: Editable)
    requires EditedAs(p, req, e) && EditedAs(p, req, f)
    ensures e == f
  {
    LowerMeans(req.email, req.email);
    DateMeans(req.dateOfBirth, p.dateOfBirth);
    DateMeans(req.lastGradingDate, p.lastGradingDate);
  }

  /** An update is accepted for storing exactly when its e-mail is free, its
      numbers, rank and dates are valid, and the category rule holds of the
      block it would leave. */
  lemma MergeSucceedsExactly(p: Editable, req: Request, taken: bool)
    ensures Merge(p, req, taken).Ok? <==> Acceptable(p, req, taken)
  {
    MergeSucceeds(p, req, taken);
    LowerMeans(req.email, p.email);
    PhoneMeans(req.whatsapp, p.whatsapp);
    PhoneMeans(req.emergencyNumber, p.emergencyNumber);
    DateMeans(req.dateOfBirth, p.dateOfBirth);
    DateMeans(req.lastGradingDate, p.lastGradingDate);
    assert req.rank in ALLOWED_RANKS <==> IsRank(req.rank);
    CategoryRuleIsATable(Or(req.category, p.category), if req.category != "" then req.fields else p.fields);
  }

  /** Otherwise the first check that fails, in the order of the code, decides the error. */
  lemma MergeRefusesExactly(p: Editable, req: Request, taken: bool)
    ensures var r := Merge(p, req, taken);
      var free := req.email == "" || SameLetters(req.email, p.email) || !taken;
      var whatsapp := Phone.NormalizePhone(req.whatsapp).Ok?;
      var dates := IsDateOrEmpty(req.dateOfBirth) && IsDateOrEmpty(req.lastGradingDate);
      var emergency := Phone.NormalizePhone(req.emergencyNumber).Ok?;
      && (r == Err(Conflict) <==> !free)
      && (r == Err(InvalidRank) <==> free && whatsapp && !IsRank(req.rank))
      && (r == Err(InvalidDate) <==> free && whatsapp && IsRank(req.rank) && !dates)
      && (r == Err(InvalidPhone) <==> free && (!whatsapp || (IsRank(req.rank) && dates && !emergency)))
      && (r == Err(WrongCategoryFields) <==>
            free && whatsapp && IsRank(req.rank) && dates && emergency && !Acceptable(p, req, taken))
  {
    MergeSucceedsExactly(p, req, taken);
    LowerMeans(req.email, p.email);
    PhoneMeans(req.whatsapp, p.whatsapp);
    PhoneMeans(req.emergencyNumber, p.emergencyNumber);
    DateMeans(req.dateOfBirth, p.dateOfBirth);
    DateMeans(req.lastGradingDate, p.lastGradingDate);
    assert req.rank in ALLOWED_RANKS <==> IsRank(req.rank);
  }

  /** Merging the same request again changes nothing more, whatever the
      conflict count then is. */
  lemma MergeIdempotent(p: Editable, req: Request, taken: bool, takenLater: bool)
    requires Merge(p, req, taken).Ok?
    ensures Merge(Merge(p, req, taken).value, req, takenLater) == Merge(p, req, taken)
  {
    LowerTwice(req.email);
    var m := Merge(p, req, taken).value;
    MergeEquation(p, req, taken);
    MergeSucceeds(p, req, taken);
    MergeSucceeds(m, req, takenLater);
    MergeEquation(m, req, takenLater);
  }

  predicate Taken(rows: map<int, Row>, u: int, email: string) {
    exists v | v in rows :: v != u && Lower(rows[v].edit.email) == Lower(email)
  }

  /** Another account has this e-mail, in whatever case. */
  ghost predicate HeldByAnother(rows: map<int, Row>, u: int, email: string) {
    exists v | v in rows :: v != u && SameLetters(rows[v].edit.email, email)
  }

  lemma TakenMeans(rows: map<int, Row>, u: int, email: string)
    ensures Taken(rows, u, email) <==> HeldByAnother(rows, u, email)
  {
    forall v | v in rows ensures Lower(rows[v].edit.email) == Lower(email) <==> SameLetters(rows[v].edit.email, email) {
      LowerMeans(rows[v].edit.email, email);
    }
  }

  /** What the whitelisted UPDATE of one row makes of the table. */
  function WithColumns(rows: map<int, Row>, u: int, e: Editable): map<int, Row> {
    if u in rows then rows[u := rows[u].(edit := e)] else rows
  }

  // ---- the source's own form ------------------------------------------------------------

  /** A loaded user. */
  class User {
    const id: int
    var name: string
    var email: string
    var whatsapp: string
    var dojo: string
    var category: string
    var fields: CategoryFields
    var rank: string
    var dateOfBirth: Date
    var lastGradingDate: Date
    var medicalConditions: string
    var emergencyName: string
    var emergencyNumber: string
    var consentDataStore: bool
    var consentMarketing: bool

    function Columns(): Editable
      reads this
    {
      Editable(name, email, whatsapp, dojo, category, fields, rank, dateOfBirth, lastGradingDate,
               medicalConditions, emergencyName, emergencyNumber, consentDataStore, consentMarketing)
    }

    constructor (id: int, e: Editable)
      ensures this.id == id && Columns() == e
    {
      this.id := id;
      name, email, whatsapp, dojo, category, fields := e.name, e.email, e.whatsapp, e.dojo, e.category, e.fields;
      rank, dateOfBirth, lastGradingDate := e.rank, e.dateOfBirth, e.lastGradingDate;
      medicalConditions, emergencyName, emergencyNumber := e.medicalConditions, e.emergencyName, e.emergencyNumber;
      consentDataStore, consentMarketing := e.consentDataStore, e.consentMarketing;
    }
  }

  class UserTable {
    var rows: map<int, Row>

    constructor (rows: map<int, Row>)
      ensures this.rows == rows
    {
      this.rows := rows;
    }

    /** The whitelisted UPDATE: a unique violation, or only those columns of that row. */
    method Write(id: int, e: Editable) returns (ok: bool)
      modifies this
      ensures ok <==> !(id in old(rows) && Taken(old(rows), id, e.email))
      ensures rows == if ok then WithColumns(old(rows), id, e) else old(rows)
    {
      if id !in rows {
        return true;  // no row matched
      }
      if exists v | v in rows :: v != id && Lower(rows[v].edit.email) == Lower(e.email) {
        return false;
      }
      rows := rows[id := rows[id].(edit := e)];
      return true;
    }

    /** ApplyProfileUpdate edits the user object field by field, and an error may
        leave it half-edited. First its identity fields. */
    method MergeIdentityInto(user: User, req: Request) returns (r: Result<(), UpdateError>)
      modifies user
      ensures var merged := MergeIdentity(old(user.Columns()), req, Taken(rows, user.id, req.email));
        if merged.Err? then r == Err(merged.error) else r == Ok(()) && user.Columns() == merged.value
    {
      user.name := Or(req.name, user.name);
      if req.email != "" && !EqualFold(req.email, user.email) {
        var email := Lower(req.email);
        LowerTwice(req.email);
        if exists v | v in rows :: v != user.id && Lower(rows[v].edit.email) == email {
          return Err(Conflict);
        }
        user.email := email;
      }
      var whatsapp := MergePhone(req.whatsapp, user.whatsapp);
      if whatsapp.None? {
        return Err(InvalidPhone);
      }
      user.whatsapp := whatsapp.value;
      user.dojo := Or(req.dojo, user.dojo);
      return Ok(());
    }

    /** Then category, rank and dates. */
    method MergeStandingInto(user: User, req: Request) returns (r: Result<(), UpdateError>)
      modifies user
      ensures var merged := MergeStanding(old(user.Columns()), req);
        if merged.Err? then r == Err(merged.error) else r == Ok(()) && user.Columns() == merged.value
    {
      if req.category != "" {
        user.category, user.fields := req.category, req.fields;
      }
      if req.rank != "" && req.rank !in ALLOWED_RANKS {
        return Err(InvalidRank);
      }
      user.rank := Or(req.rank, user.rank);
      var dob := MergeDate(req.dateOfBirth, user.dateOfBirth);
      if dob.None? {
        return Err(InvalidDate);
      }
      user.dateOfBirth := dob.value;
      var lgd := MergeDate(req.lastGradingDate, user.lastGradingDate);
      if lgd.None? {
        return Err(InvalidDate);
      }
      user.lastGradingDate := lgd.value;
      return Ok(());
    }

    /** Then the rest. */
    method MergeContactsInto(user: User, req: Request) returns (r: Result<(), UpdateError>)
      modifies user
      ensures var merged := MergeContacts(old(user.Columns()), req);
        if merged.Err? then r == Err(merged.error) else r == Ok(()) && user.Columns() == merged.value
    {
      user.medicalConditions := Or(req.medicalConditions, user.medicalConditions);
      user.emergencyName := Or(req.emergencyName, user.emergencyName);
      var number := MergePhone(req.emergencyNumber, user.emergencyNumber);
      if number.None? {
        return Err(InvalidPhone);
      }
      user.emergencyNumber := number.value;
      user.consentDataStore := MergeFlag(req.consentDataStore, user.consentDataStore);
      user.consentMarketing := MergeFlag(req.consentMarketing, user.consentMarketing);
      return Ok(());
    }

    /** All of them, and the category rule on the result. */
    method MergeInto(user: User, req: Request) returns (r: Result<(), UpdateError>)
      modifies user
      ensures var merged := Merge(old(user.Columns()), req, Taken(rows, user.id, req.email));
        if merged.Err? then r == Err(merged.error) else r == Ok(()) && user.Columns() == merged.value
    {
      r := MergeIdentityInto(user, req);
      if r.Err? {
        return;
      }
      r := MergeStandingInto(user, req);
      if r.Err? {
        return;
      }
      r := MergeContactsInto(user, req);
      if r.Err? {
        return;
      }
      if CategoryFieldsMissing(user.category, user.fields) {
        return Err(WrongCategoryFields);
      }
    }

    /** ApplyProfileUpdate on an already loaded user, which may be stale: the
        table is written only if the whole merge succeeded, and then only in
        the whitelisted columns. */
    method ApplyProfileUpdate(user: User, req: Request) returns (r: Result<(), UpdateError>)
      modifies this, user
      ensures var merged := Merge(old(user.Columns()), req, Taken(old(rows), user.id, req.email));
        && (merged.Err? ==> r == Err(merged.error))
        && (merged.Ok? ==> user.Columns() == merged.value)
        && (merged.Ok? ==>
              if user.id in old(rows) && Taken(old(rows), user.id, merged.value.email) then r == Err(Conflict)
              else r == Ok(()))
      ensures r.Ok? ==>
        Acceptable(old(user.Columns()), req, HeldByAnother(old(rows), user.id, req.email))
          && EditedAs(old(user.Columns()), req, user.Columns())
      ensures rows == if r.Ok? then WithColumns(old(rows), user.id, user.Columns()) else old(rows)
    {
      UpdateMeans(user.Columns(), req, rows, user.id);
      r := MergeInto(user, req);
      if r.Err? {
        return;
      }
      var ok := Write(user.id, user.Columns());
      if !ok {
        return Err(Conflict);
      }
    }
  }

  lemma UpdateMeans(p: Editable, req: Request, rows: map<int, Row>, u: int)
    ensures var merged := Merge(p, req, Taken(rows, u, req.email));
      && (merged.Ok? <==> Acceptable(p, req, HeldByAnother(rows, u, req.email)))
      && (merged.Ok? ==> EditedAs(p, req, merged.value))
  {
    var taken := Taken(rows, u, req.email);
    TakenMeans(rows, u, req.email);
    MergeSucceedsExactly(p, req, taken);
    if Merge(p, req, taken).Ok? { MergedColumns(p, req, taken); }
  }
}
