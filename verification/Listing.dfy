/** internal/admin/database.go's dbListUsers, and the page numbers the list
    handler echoes: clamping, the viewer's scope, filters, order and paging. */
module Listing {
  import opened Roles

  const DEFAULT_PAGE_SIZE := 25
  const MAX_PAGE_SIZE := 100
  const MAX_PAGE := 1000000

  /** A users row, down to what listing reads or must not disclose. */
  datatype Member = Member(
    id: int, name: string, email: string, whatsapp: string, dojo: string, role: Role, category: string,
    medicalConditions: string, emergencyContact: string)

  datatype MemberSummary = MemberSummary(
    id: int, name: string, email: string, whatsapp: string, dojo: string, role: Role, category: string)

  function SummaryOf(m: Member): MemberSummary {
    MemberSummary(m.id, m.name, m.email, m.whatsapp, m.dojo, m.role, m.category)
  }

  /** One summary per member, in the same order, each with the seven columns that
      may be disclosed. */
  ghost predicate Summarises(summaries: seq<MemberSummary>, members: seq<Member>) {
    && |summaries| == |members|
    && forall i | 0 <= i < |members| ::
        && summaries[i].id == members[i].id && summaries[i].name == members[i].name
        && summaries[i].email == members[i].email && summaries[i].whatsapp == members[i].whatsapp
        && summaries[i].dojo == members[i].dojo && summaries[i].role == members[i].role
        && summaries[i].category == members[i].category
  }

  // ---- clamping ---------------------------------------------------------------------

  function EffectivePage(page: int): int {
    if page < 1 then 1 else if page > MAX_PAGE then MAX_PAGE else page
  }

  function EffectiveSize(size: int): int {
    if size < 1 then DEFAULT_PAGE_SIZE else if size > MAX_PAGE_SIZE then MAX_PAGE_SIZE else size
  }

  function Offset(page: int, size: int): int {
    (EffectivePage(page) - 1) * EffectiveSize(size)
  }

  /** The clamps in numbers. */
  lemma ClampsInNumbers(page: int, size: int)
    ensures EffectivePage(page) == if page < 1 then 1 else if page > 1_000_000 then 1_000_000 else page
    ensures EffectiveSize(size) == if size < 1 then 25 else if size > 100 then 100 else size
  {
  }

  // Products of counts: a pages of n rows.

  lemma NotNegative(a: nat, n: nat)
    ensures 0 <= a * n
  {
  }

  lemma OneMorePage(a: int, n: int)
    ensures (a + 1) * n == a * n + n
  {
  }

  lemma Together(a: int, b: int, n: int)
    ensures (a + b) * n == a * n + b * n
  {
  }

  lemma NoFewerRows(a: nat, b: nat, n: nat)
    requires a <= b
    ensures a * n <= b * n
  {
    NotNegative(b - a, n);
    Together(a, b - a, n);
  }

  lemma MorePages(a: nat, b: nat, n: nat)
    ensures 0 <= a * n
    ensures a <= b ==> a * n <= b * n
    ensures a < b ==> a * n + n <= b * n
  {
    NotNegative(a, n);
    if a < b {
      OneMorePage(a, n);
      NoFewerRows(a + 1, b, n);
      NoFewerRows(a, b, n);
    }
  }

  lemma DivMod(i: nat, n: nat)
    requires n > 0
    ensures i / n >= 0 && (i / n) * n <= i < (i / n) * n + n
  {
  }

  lemma OffsetInRange(page: int, size: int)
    ensures 0 <= Offset(page, size) <= 99_999_900
    ensures Offset(page, size) == 99_999_900 <==> page >= MAX_PAGE && size >= MAX_PAGE_SIZE
  {
    var p, n := EffectivePage(page) - 1, EffectiveSize(size);
    MorePages(p, MAX_PAGE - 1, n);
    assert (MAX_PAGE - 1) * n == 999_999 * n;
    if n == MAX_PAGE_SIZE { assert p * n == p * 100; }
  }

  /** handleListUsers clamps again for its response, but not at MAX_PAGE. */
  method EchoedPage(page: int, size: int) returns (p: int, n: int)
    ensures n == EffectiveSize(size) == if size < 1 then 25 else if size > 100 then 100 else size
    ensures p == EffectivePage(page) <==> page <= 1_000_000
    ensures p == if page < 1 then 1 else page
  {
    p, n := page, size;
    if p < 1 {
      p := 1;
    }
    if n < 1 {
      n := DEFAULT_PAGE_SIZE;
    }
    if n > MAX_PAGE_SIZE {
      n := MAX_PAGE_SIZE;
    }
  }

  // ---- the query ----------------------------------------------------------------------

  /** unicode.IsSpace */
  predicate IsSpace(c: char) {
    || '\t' <= c <= '\r' || c == ' ' || c == '\U{0085}' || c == '\U{00A0}' || c == '\U{1680}'
    || '\U{2000}' <= c <= '\U{200A}' || c == '\U{2028}' || c == '\U{2029}' || c == '\U{202F}'
    || c == '\U{205F}' || c == '\U{3000}'
  }

  function TrimLeft(s: string): string {
    if s != "" && IsSpace(s[0]) then TrimLeft(s[1..]) else s
  }

  function TrimRight(s: string): string {
    if s != "" && IsSpace(s[|s| - 1]) then TrimRight(s[..|s| - 1]) else s
  }

  function TrimSpace(s: string): string {
    TrimRight(TrimLeft(s))
  }

  /** White space by code point. */
  ghost predicate IsWhite(c: char) {
    c as int in {9, 10, 11, 12, 13, 32, 133, 160, 5760, 8232, 8233, 8239, 8287, 12288} || 8192 <= c as int <= 8202
  }

  ghost predicate AllWhite(s: string) {
    forall i | 0 <= i < |s| :: IsWhite(s[i])
  }

  ghost predicate Around(s: string, a: string, t: string, b: string) {
    s == a + t + b && AllWhite(a) && AllWhite(b)
  }

  /** t is s without the white space around it. */
  ghost predicate Trimmed(s: string, t: string) {
    && (t != "" ==> !IsWhite(t[0]) && !IsWhite(t[|t| - 1]))
    && exists a, b :: Around(s, a, t, b)
  }

  lemma {:induction false} TrimLeftMeans(s: string) returns (a: string)
    ensures Around(s, a, TrimLeft(s), "") && (TrimLeft(s) != "" ==> !IsWhite(TrimLeft(s)[0]))
  {
    if s != "" && IsSpace(s[0]) {
      var rest := TrimLeftMeans(s[1..]);
      a := [s[0]] + rest;
      assert s == [s[0]] + s[1..];
    } else {
      a := "";
    }
  }

  lemma {:induction false} TrimRightMeans(s: string) returns (b: string)
    ensures Around(s, "", TrimRight(s), b)
    ensures TrimRight(s) != "" ==> !IsWhite(TrimRight(s)[|TrimRight(s)| - 1]) && TrimRight(s)[0] == s[0]
  {
    if s != "" && IsSpace(s[|s| - 1]) {
      var rest := TrimRightMeans(s[..|s| - 1]);
      b := rest + [s[|s| - 1]];
      assert s == s[..|s| - 1] + [s[|s| - 1]];
    } else {
      b := "";
    }
  }

  lemma TrimSpaceMeans(s: string)
    ensures Trimmed(s, TrimSpace(s))
  {
    var a := TrimLeftMeans(s);
    var b := TrimRightMeans(TrimLeft(s));
    assert Around(s, a, TrimSpace(s), b);
  }

  lemma AroundAt(s: string, a: string, t: string, b: string)
    requires Around(s, a, t, b)
    ensures |s| == |a| + |t| + |b|
    ensures forall i | 0 <= i < |s| && (i < |a| || |a| + |t| <= i) :: IsWhite(s[i])
    ensures t == s[|a|..|a| + |t|]
  {
    forall i | 0 <= i < |s| && (i < |a| || |a| + |t| <= i) ensures IsWhite(s[i]) {
      assert s[i] == if i < |a| then a[i] else b[i - |a| - |t|];
    }
  }

  /** There is one such t. */
  lemma TrimmedIsUnique(s: string, t: string, u: string)
    requires Trimmed(s, t) && Trimmed(s, u)
    ensures t == u
  {
    var a, b :| Around(s, a, t, b);
    var c, d :| Around(s, c, u, d);
    AroundAt(s, a, t, b);
    AroundAt(s, c, u, d);
    if t != "" { assert s[|a|] == t[0] && s[|a| + |t| - 1] == t[|t| - 1]; }
    if u != "" { assert s[|c|] == u[0] && s[|c| + |u| - 1] == u[|u| - 1]; }
  }

  /** A WHERE condition. */
  datatype Condition = RoleIn(roles: set<Role>) | RoleIs(role: Role) | NameOrEmailLike(term: string)

  /** `like` stands for ILIKE '%term%'. */
  predicate Holds(c: Condition, m: Member, like: (string, string) -> bool) {
    match c
    case RoleIn(roles) => m.role in roles
    case RoleIs(role) => m.role == role
    case NameOrEmailLike(term) => like(m.name, term) || like(m.email, term)
  }

  predicate HoldAll(conds: seq<Condition>, m: Member, like: (string, string) -> bool) {
    forall c | c in conds :: Holds(c, m, like)
  }

  function Where(rows: seq<Member>, conds: seq<Condition>, like: (string, string) -> bool): seq<Member> {
    if rows == [] then []
    else (if HoldAll(conds, rows[0], like) then [rows[0]] else []) + Where(rows[1..], conds, like)
  }

  function Insert(m: Member, rows: seq<Member>): seq<Member> {
    if rows == [] || m.id <= rows[0].id then [m] + rows else [rows[0]] + Insert(m, rows[1..])
  }

  /** ORDER BY id ASC */
  function OrderById(rows: seq<Member>): seq<Member> {
    if rows == [] then [] else Insert(rows[0], OrderById(rows[1..]))
  }

  function LimitOffset(rows: seq<Member>, limit: nat, offset: nat): seq<Member> {
    if offset >= |rows| then []
    else if offset + limit <= |rows| then rows[offset..offset + limit]
    else rows[offset..]
  }

  // ---- what a viewer may list --------------------------------------------------------------

  ghost predicate Matches(m: Member, viewerLevel: int, term: string, pendingOnly: bool,
                          like: (string, string) -> bool) {
    InScope(viewerLevel, m.role) && (pendingOnly ==> m.role == New)
        && (term != "" ==> like(m.name, term) || like(m.email, term))
  }

  /** A users table: ids are a primary key. */
  ghost predicate Table(rows: seq<Member>) {
    forall i, j | 0 <= i < j < |rows| :: rows[i].id != rows[j].id
  }

  ghost predicate StrictlyById(rows: seq<Member>) {
    forall i, j | 0 <= i < j < |rows| :: rows[i].id < rows[j].id
  }

  /** The listing asked for: exactly the members that match the trimmed search, in
      id order, and so each once. */
  ghost predicate IsListing(all: seq<Member>, rows: seq<Member>, viewerLevel: int, search: string, pendingOnly: bool,
                            like: (string, string) -> bool) {
    && StrictlyById(all)
    && (exists term :: Trimmed(search, term)
          && forall m :: m in all <==> m in rows && Matches(m, viewerLevel, term, pendingOnly, like))
  }

  /** There is one listing of a table for a request. */
  lemma {:induction false} ListingIsUnique(a: seq<Member>, b: seq<Member>)
    requires StrictlyById(a) && StrictlyById(b) && forall m :: m in a <==> m in b
    ensures a == b
  {
    assert a != [] ==> a[0] in b;
    assert b != [] ==> b[0] in a;
    if a != [] && b != [] {
      var i :| 0 <= i < |b| && b[i] == a[0];
      var j :| 0 <= j < |a| && a[j] == b[0];
      assert a[0] == b[0];
      forall m ensures m in a[1..] <==> m in b[1..] {
        if m in a[1..] {
          assert m in b && m.id != a[0].id;
        }
        if m in b[1..] {
          assert m in a && m.id != b[0].id;
        }
      }
      ListingIsUnique(a[1..], b[1..]);
      assert a == [a[0]] + a[1..] && b == [b[0]] + b[1..];
    }
  }

  lemma {:induction false} WhereMeans(rows: seq<Member>, conds: seq<Condition>, like: (string, string) -> bool)
    ensures forall m :: m in Where(rows, conds, like) <==> m in rows && HoldAll(conds, m, like)
    ensures Table(rows) ==> Table(Where(rows, conds, like))
  {
    if rows != [] {
      WhereMeans(rows[1..], conds, like);
      if Table(rows) {
        assert forall m | m in rows[1..] :: m.id != rows[0].id;
      }
    }
  }

  lemma {:induction false} InsertKeepsOrder(m: Member, rows: seq<Member>)
    requires StrictlyById(rows) && forall x | x in rows :: x.id != m.id
    ensures StrictlyById(Insert(m, rows))
    ensures forall x :: x in Insert(m, rows) <==> x == m || x in rows
  {
    if rows != [] && m.id > rows[0].id {
      InsertKeepsOrder(m, rows[1..]);
      assert rows == [rows[0]] + rows[1..];
      var r := Insert(m, rows[1..]);
      forall k | 0 <= k < |r| ensures r[k].id > rows[0].id { assert r[k] in r; }
    }
  }

  lemma {:induction false} OrderMeans(rows: seq<Member>)
    requires Table(rows)
    ensures StrictlyById(OrderById(rows))
    ensures forall x :: x in OrderById(rows) <==> x in rows
  {
    if rows != [] {
      OrderMeans(rows[1..]);
      InsertKeepsOrder(rows[0], OrderById(rows[1..]));
    }
  }

  lemma {:induction false} OrderKeepsCount(rows: seq<Member>)
    ensures |OrderById(rows)| == |rows|
  {
    if rows != [] {
      OrderKeepsCount(rows[1..]);
      InsertCount(rows[0], OrderById(rows[1..]));
    }
  }

  lemma {:induction false} InsertCount(m: Member, rows: seq<Member>)
    ensures |Insert(m, rows)| == |rows| + 1
  {
    if rows != [] && m.id > rows[0].id { InsertCount(m, rows[1..]); }
  }

  lemma AndAlso(conds: seq<Condition>, c: Condition, like: (string, string) -> bool)
    ensures forall m :: HoldAll(conds + [c], m, like) <==> HoldAll(conds, m, like) && Holds(c, m, like)
  {
    forall m ensures HoldAll(conds + [c], m, like) <==> HoldAll(conds, m, like) && Holds(c, m, like) {
      assert forall d :: d in conds + [c] <==> d in conds || d == c;
    }
  }

  /** The conditions shared by the count and the page query. */
  method Conditions(viewerLevel: int, term: string, pendingOnly: bool, ghost like: (string, string) -> bool)
    returns (conds: seq<Condition>)
    ensures forall m :: HoldAll(conds, m, like) <==> Matches(m, viewerLevel, term, pendingOnly, like)
  {
    conds := [];
    if viewerLevel < RoleLevel(Superuser) {
      AndAlso(conds, RoleIn({New, User}), like);
      conds := conds + [RoleIn({New, User})];
    }
    assert forall m :: HoldAll(conds, m, like) <==> InScope(viewerLevel, m.role);
    if pendingOnly {
      AndAlso(conds, RoleIs(New), like);
      conds := conds + [RoleIs(New)];
    }
    if term != "" {
      AndAlso(conds, NameOrEmailLike(term), like);
      conds := conds + [NameOrEmailLike(term)];
    }
  }

  lemma QueryIsListing(rows: seq<Member>, conds: seq<Condition>, viewerLevel: int, search: string, pendingOnly: bool,
                       like: (string, string) -> bool)
    requires Table(rows)
    requires forall m :: HoldAll(conds, m, like) <==> Matches(m, viewerLevel, TrimSpace(search), pendingOnly, like)
    ensures IsListing(OrderById(Where(rows, conds, like)), rows, viewerLevel, search, pendingOnly, like)
    ensures |OrderById(Where(rows, conds, like))| == |Where(rows, conds, like)|
  {
    TrimSpaceMeans(search);
    WhereMeans(rows, conds, like);
    OrderMeans(Where(rows, conds, like));
    OrderKeepsCount(Where(rows, conds, like));
  }

  /** The loop that turns the fetched rows into summaries. */
  method Summarise(users: seq<Member>) returns (summaries: seq<MemberSummary>)
    ensures Summarises(summaries, users)
  {
    summaries := [];
    for i := 0 to |users|
      invariant Summarises(summaries, users[..i])
    {
      summaries := summaries + [SummaryOf(users[i])];
    }
    assert users[..|users|] == users;
  }

  method Clamped(page: int, size: int) returns (p: int, n: int)
    ensures p == EffectivePage(page) && n == EffectiveSize(size)
  {
    p, n := page, size;
    if p < 1 {
      p := 1;
    }
    if p > MAX_PAGE {
      p := MAX_PAGE;
    }
    if n < 1 {
      n := DEFAULT_PAGE_SIZE;
    }
    if n > MAX_PAGE_SIZE {
      n := MAX_PAGE_SIZE;
    }
  }

  /** dbListUsers: one page of the one listing there is, and how many members
      that listing holds. */
  method ListUsers(rows: seq<Member>, viewerLevel: int, search: string, pendingOnly: bool, page: int, size: int,
                   like: (string, string) -> bool)
    returns (summaries: seq<MemberSummary>, total: int)
    requires Table(rows)
    ensures exists all ::
        IsListing(all, rows, viewerLevel, search, pendingOnly, like) && total == |all|
            && Summarises(summaries, Page(all, page, size))
  {
    var p, n := Clamped(page, size);
    var offset := (p - 1) * n;
    OffsetInRange(page, size);
    var term := TrimSpace(search);
    var conds := Conditions(viewerLevel, term, pendingOnly, like);
    var matching := Where(rows, conds, like);
    total := |matching|;
    var ordered := OrderById(matching);
    QueryIsListing(rows, conds, viewerLevel, search, pendingOnly, like);
    summaries := Summarise(LimitOffset(ordered, n, offset));
  }

  // ---- paging ------------------------------------------------------------------------

  /** The part of a listing that a request for a page gets. */
  function Page(all: seq<Member>, page: int, size: int): seq<Member> {
    OffsetInRange(page, size);
    LimitOffset(all, EffectiveSize(size), Offset(page, size))
  }

  function PageCount(total: nat, size: int): nat {
    (total + EffectiveSize(size) - 1) / EffectiveSize(size)
  }

  /** Pages 1 to k, one after the other. */
  function FirstPages(all: seq<Member>, k: nat, size: int): seq<Member> {
    if k == 0 then [] else FirstPages(all, k - 1, size) + Page(all, k, size)
  }

  function UpTo(all: seq<Member>, o: nat): seq<Member> {
    if o <= |all| then all[..o] else all
  }

  lemma NextPage(all: seq<Member>, o: nat, n: nat)
    ensures UpTo(all, o) + LimitOffset(all, n, o) == UpTo(all, o + n)
  {
  }

  lemma {:induction false} FirstPagesArePrefix(all: seq<Member>, k: nat, size: int)
    requires k <= MAX_PAGE
    ensures 0 <= k * EffectiveSize(size) && FirstPages(all, k, size) == UpTo(all, k * EffectiveSize(size))
  {
    var n := EffectiveSize(size);
    if k > 0 {
      FirstPagesArePrefix(all, k - 1, size);
      var o := Offset(k, size);
      OneMorePage(k - 1, n);
      NextPage(all, o, n);
    }
  }

  lemma PagesCover(total: nat, n: nat)
    requires n > 0
    ensures (total + n - 1) / n * n >= total
    ensures total <= MAX_PAGE * n ==> (total + n - 1) / n <= MAX_PAGE
  {
    DivMod(total + n - 1, n);
    MorePages(MAX_PAGE, (total + n - 1) / n, n);
  }

  /** Up to MAX_PAGE full pages, the pages together are the listing. */
  lemma PagesAreTheListing(all: seq<Member>, size: int)
    requires |all| <= MAX_PAGE * EffectiveSize(size)
    ensures FirstPages(all, PageCount(|all|, size), size) == all
  {
    var n := EffectiveSize(size);
    var k := PageCount(|all|, size);
    PagesCover(|all|, n);
    FirstPagesArePrefix(all, k, size);
  }

  /** Which requests show the member at a given place of the listing. */
  lemma ShownOnPage(all: seq<Member>, i: nat, page: int, size: int)
    requires i < |all| && StrictlyById(all)
    ensures all[i] in Page(all, page, size) <==> EffectivePage(page) == i / EffectiveSize(size) + 1
  {
    var n, o := EffectiveSize(size), Offset(page, size);
    OffsetInRange(page, size);
    var shown := Page(all, page, size);
    if o <= i < o + n {
      assert i - o < |shown| && shown[i - o] == all[i];
      assert i / n == EffectivePage(page) - 1 by { DivisionIs(i, EffectivePage(page) - 1, n); }
    } else {
      forall j | 0 <= j < |shown| ensures shown[j] != all[i] {
        assert shown[j] == all[o + j];
      }
      DivMod(i, n);
    }
  }

  lemma DivisionIs(i: nat, q: nat, n: nat)
    requires n > 0 && q * n <= i < q * n + n
    ensures i / n == q
  {
    DivMod(i, n);
    MorePages(i / n, q, n);
    MorePages(q, i / n, n);
  }

  /** Every member of the listing can be reached by some page number exactly
      when the listing fits MAX_PAGE pages. */
  lemma AllReachableExactly(all: seq<Member>, size: int)
    requires StrictlyById(all)
    ensures (forall m | m in all :: exists page :: m in Page(all, page, size)) <==>
        |all| <= MAX_PAGE * EffectiveSize(size)
  {
    var n := EffectiveSize(size);
    if |all| <= MAX_PAGE * n {
      forall m | m in all ensures exists page :: m in Page(all, page, size) {
        var i :| 0 <= i < |all| && all[i] == m;
        DivMod(i, n);
        MorePages(MAX_PAGE, i / n, n);
        ShownOnPage(all, i, i / n + 1, size);
      }
    } else {
      var i := MAX_PAGE * n;
      DivisionIs(i, MAX_PAGE, n);
      forall page ensures all[i] !in Page(all, page, size) { ShownOnPage(all, i, page, size); }
      assert all[i] in all;
    }
  }
}
