/** internal/types/parse.go: the E.164 normaliser used by registration and
    profile updates. */
module Phone {
  import opened Outcomes
  import opened Patterns

  datatype PhoneError = NotInternational

  const NO_BREAK_SPACE: char := '\U{00A0}'

  predicate IsSeparator(c: char) {
    c == ' ' || c == NO_BREAK_SPACE || c == '-' || c == '.' || c == '(' || c == ')'
  }

  /** phoneCleanup.Replace */
  function Strip(s: string): string {
    if s == "" then ""
    else if IsSeparator(s[0]) then Strip(s[1..])
    else [s[0]] + Strip(s[1..])
  }

  const DIGIT := Between('0', '9')

  /** `[2-9]\d{7,11}`, an Indonesian subscriber number */
  const SUBSCRIBER: seq<Atom> := [Atom(Between('2', '9'), 1, 1), Atom(DIGIT, 7, 11)]

  /** phoneIDPattern, `^\+62[2-9]\d{7,11}$` */
  const PHONE_ID: seq<Atom> := Literal("+62") + SUBSCRIBER

  /** `[1-9]\d{7,14}`, any other country code and number */
  const GENERIC: seq<Atom> := [Atom(Between('1', '9'), 1, 1), Atom(DIGIT, 7, 14)]

  /** phoneGenericPattern, `^\+[1-9]\d{7,14}$` */
  const PHONE_GENERIC: seq<Atom> := Literal("+") + GENERIC

  /** The tail of NormalizePhone: strip one trunk zero, then check the shape. */
  function CheckShape(digits: string): Result<string, PhoneError> {
    var digits := if "620" <= digits then "62" + digits[3..] else digits;
    var e164 := "+" + digits;
    var pattern := if "+62" <= e164 then PHONE_ID else PHONE_GENERIC;
    if Matches(pattern, e164) then Ok(e164) else Err(NotInternational)
  }

  function NormalizePhone(raw: string): Result<string, PhoneError> {
    var s := Strip(raw);
    if s == "" then Ok("")
    else if "+" <= s then CheckShape(s[1..])
    else if "0" <= s then
      if "00" <= s then Err(NotInternational) else CheckShape("62" + s[1..])
    else if !("62" <= s) then Err(NotInternational)
    else CheckShape(s)
  }

  // ---- what the patterns accept --------------------------------------------

  predicate Digits(s: string) {
    forall i | 0 <= i < |s| :: '0' <= s[i] <= '9'
  }

  /** A subscriber number on the Indonesian plan: 8 to 12 digits, the first 2-9. */
  predicate Subscriber(n: string) {
    8 <= |n| <= 12 && Digits(n) && '2' <= n[0]
  }

  /** What may follow the plus of a number outside Indonesia. */
  predicate ForeignNumber(d: string) {
    8 <= |d| <= 15 && Digits(d) && '1' <= d[0]
  }

  lemma {:induction false} SubscriberPattern(n: string)
    ensures Matches(SUBSCRIBER, n) <==> Subscriber(n)
  {
    TwoAtoms(Between('2', '9'), 7, 11, n);
  }

  lemma {:induction false} GenericPattern(d: string)
    ensures Matches(GENERIC, d) <==> ForeignNumber(d)
  {
    TwoAtoms(Between('1', '9'), 7, 14, d);
  }

  lemma {:induction false} TwoAtoms(first: Class, min: nat, max: nat, s: string)
    requires first.Between? && '0' <= first.lo && first.hi <= '9'
    ensures Matches([Atom(first, 1, 1), Atom(DIGIT, min, max)], s)
       <==> min + 1 <= |s| <= max + 1 && Digits(s) && first.Has(s[0])
  {
    assert [Atom(first, 1, 1), Atom(DIGIT, min, max)] == [Atom(first, 1, 1)] + [Atom(DIGIT, min, max)];
    MatchesOne(first, [Atom(DIGIT, min, max)], s);
    if |s| >= 1 {
      MatchesLast(DIGIT, min, max, s[1..]);
      assert forall i | 1 <= i < |s| :: s[i] == s[1..][i - 1];
    }
  }

  /** CheckShape, with the patterns read out. */
  lemma {:induction false} CheckShapeMeaning(digits: string)
    ensures CheckShape(digits) ==
      if "620" <= digits then if Subscriber(digits[3..]) then Ok("+62" + digits[3..]) else Err(NotInternational)
      else if "62" <= digits then if Subscriber(digits[2..]) then Ok("+" + digits) else Err(NotInternational)
      else if ForeignNumber(digits) then Ok("+" + digits) else Err(NotInternational)
  {
    var d := if "620" <= digits then "62" + digits[3..] else digits;
    var e := "+" + d;
    if "62" <= d {
      assert "+62" <= e;
      MatchesLiteral("+62", SUBSCRIBER, e);
      assert e[3..] == d[2..];
      SubscriberPattern(d[2..]);
      if "620" <= digits {
        assert d[2..] == digits[3..];
        assert "+" + d == "+62" + digits[3..];
      }
    } else {
      MatchesLiteral("+", GENERIC, e);
      assert e[1..] == d;
      GenericPattern(d);
    }
  }

  // ---- separators ----------------------------------------------------------

  lemma {:induction false} StripConcat(a: string, b: string)
    ensures Strip(a + b) == Strip(a) + Strip(b)
  {
    if a == "" {
      assert a + b == b;
    } else {
      assert (a + b)[0] == a[0] && (a + b)[1..] == a[1..] + b;
      StripConcat(a[1..], b);
    }
  }

  lemma {:induction false} StripClean(s: string)
    requires forall c | c in s :: !IsSeparator(c)
    ensures Strip(s) == s
  {
    if s != "" { StripClean(s[1..]); }
  }

  lemma {:induction false} StripRemoves(s: string)
    ensures forall c | c in Strip(s) :: !IsSeparator(c) && c in s
  {
    if s != "" { StripRemoves(s[1..]); }
  }

  /** What people write between the digits. */
  ghost predicate Ignored(c: char) {
    c in [' ', '\U{00A0}', '-', '.', '(', ')']
  }

  /** Strip drops exactly those characters and keeps the others in their places. */
  lemma StripCharacter(a: string, c: char, b: string)
    ensures Strip(a + [c] + b) == Strip(a) + (if Ignored(c) then "" else [c]) + Strip(b)
  {
    StripConcat(a + [c], b);
    StripConcat(a, [c]);
    assert [c][1..] == "";
    assert Strip([c]) == if IsSeparator(c) then Strip([c][1..]) else [c] + Strip([c][1..]);
  }

  /** Nothing is left of a string exactly when it has no other characters, and
      that is exactly when its normal form is empty. */
  lemma {:induction false} EmptyPreimages(s: string)
    ensures Strip(s) == "" <==> forall c | c in s :: Ignored(c)
    ensures NormalizePhone(s) == Ok("") <==> forall c | c in s :: Ignored(c)
  {
    if s != "" {
      EmptyPreimages(s[1..]);
      assert s == "" + [s[0]] + s[1..];
      StripCharacter("", s[0], s[1..]);
    }
    NormalisedIsStoredForm(s);
    NeverEmpty(Strip(s));
  }

  lemma NeverEmpty(t: string)
    ensures t != "" ==> CheckShape(t) != Ok("") && CheckShape(t[1..]) != Ok("") && CheckShape("62" + t[1..]) != Ok("")
  {
  }

  /** An accepted number is written with digits, plus signs and those characters only. */
  lemma {:induction false} AcceptedCharacters(s: string, c: char)
    requires NormalizePhone(s).Ok? && c in s
    ensures Ignored(c) || '0' <= c <= '9' || c == '+'
  {
    var i :| 0 <= i < |s| && s[i] == c;
    assert s == s[..i] + [c] + s[i + 1..];
    StripCharacter(s[..i], c, s[i + 1..]);
    var t := Strip(s);
    if !Ignored(c) {
      assert t[|Strip(s[..i])|] == c;
      if "+" <= t { ShapedDigits(t[1..]); assert t == "+" + t[1..]; }
      else if "0" <= t { ShapedDigits("62" + t[1..]); assert t == "0" + ("62" + t[1..])[2..]; }
      else { ShapedDigits(t); }
    }
  }

  lemma {:induction false} ShapedDigits(digits: string)
    requires CheckShape(digits).Ok?
    ensures Digits(digits)
  {
    CheckShapeMeaning(digits);
    if "620" <= digits { assert digits == "620" + digits[3..]; }
    else if "62" <= digits { assert digits == "62" + digits[2..]; }
  }

  /** A separator anywhere never changes the result. */
  lemma SeparatorsNeverMatter(a: string, c: char, b: string)
    requires c in [' ', '\U{00A0}', '-', '.', '(', ')']
    ensures NormalizePhone(a + [c] + b) == NormalizePhone(a + b)
  {
    StripCharacter(a, c, b);
    StripConcat(a, b);
    assert Strip(a) + "" + Strip(b) == Strip(a) + Strip(b);
  }

  // ---- the main results ----------------------------------------------------

  /** The stored form of an accepted number. */
  predicate StoredForm(e: string) {
    || e == ""
    || ("+62" <= e && Subscriber(e[3..]))
    || ("+" <= e && !("+62" <= e) && ForeignNumber(e[1..]))
  }

  /** Exactly the stored forms are fixed points of the normaliser. */
  lemma {:induction false} FixedPoints(e: string)
    ensures NormalizePhone(e) == Ok(e) <==> StoredForm(e)
  {
    if StoredForm(e) {
      forall c | c in e ensures !IsSeparator(c) {
        var i :| 0 <= i < |e| && e[i] == c;
        if e != "" && i > 0 {
          if "+62" <= e {
            if i >= 3 { assert e[i] == e[3..][i - 3]; } else { assert e[..3] == "+62"; }
          } else {
            assert e[i] == e[1..][i - 1];
          }
        }
      }
      StripClean(e);
    }
    NormalisedIsStoredForm(e);
    if e != "" && StoredForm(e) {
      CheckShapeMeaning(e[1..]);
      assert "+" + e[1..] == e;
      if "+62" <= e {
        assert "62" <= e[1..] by { assert e[1..][..2] == e[..3][1..]; }
        assert e[1..][2..] == e[3..];
      }
    }
  }

  /** Every result is "" or a plus and 8 to 15 digits that start with a
      non-zero digit; +62 is never followed by 0; and normalising the result
      again returns it. */
  lemma {:induction false} NormaliserSound(s: string)
    requires NormalizePhone(s).Ok?
    ensures var e := NormalizePhone(s).value;
      && (e != "" ==> e[0] == '+' && 9 <= |e| <= 16 && Digits(e[1..]) && e[1] != '0')
      && !("+620" <= e)
      && NormalizePhone(e) == Ok(e)
  {
    var e := NormalizePhone(s).value;
    NormalisedIsStoredForm(s);
    FixedPoints(e);
    if "+62" <= e {
      assert e[..3] == "+62";
      forall i | 0 <= i < |e[1..]| ensures '0' <= e[1..][i] <= '9' {
        if i >= 2 { assert e[1..][i] == e[3..][i - 2]; } else { assert e[1..][i] == e[..3][i + 1]; }
      }
    }
  }

  lemma {:induction false} NormalisedIsStoredForm(s: string)
    ensures NormalizePhone(s).Ok? ==> StoredForm(NormalizePhone(s).value)
  {
    var t := Strip(s);
    if "+" <= t { ShapedIsStoredForm(t[1..]); }
    else if "0" <= t { ShapedIsStoredForm("62" + t[1..]); }
    else { ShapedIsStoredForm(t); }
  }

  lemma {:induction false} ShapedIsStoredForm(digits: string)
    ensures CheckShape(digits).Ok? ==> StoredForm(CheckShape(digits).value)
  {
    CheckShapeMeaning(digits);
    if "620" <= digits {
      assert ("+62" + digits[3..])[3..] == digits[3..];
    } else {
      assert ("+" + digits)[1..] == digits;
      if "62" <= digits { assert ("+" + digits)[3..] == digits[2..]; }
    }
  }

  /** The five spellings of one Indonesian number. */
  predicate SpellsIndonesian(t: string, n: string) {
    t == "0" + n || t == "62" + n || t == "+62" + n || t == "620" + n || t == "+620" + n
  }

  /** The exact pre-images of an Indonesian number. */
  lemma {:induction false} IndonesianPreimages(s: string, n: string)
    ensures NormalizePhone(s) == Ok("+62" + n) <==> Subscriber(n) && SpellsIndonesian(Strip(s), n)
  {
    var t := Strip(s);
    assert ("+62" + n)[3..] == n;
    if t != "" {
      if "+" <= t {
        IndonesianShape(t[1..], n);
        assert t == "+" + t[1..];
        assert ("+62" + n)[1..] == "62" + n && ("+620" + n)[1..] == "620" + n;
      } else if "0" <= t {
        IndonesianShape("62" + t[1..], n);
        assert t == "0" + t[1..];
        assert ("62" + t[1..])[2..] == t[1..] && ("62" + n)[2..] == n;
        assert ("0" + n)[1..] == n;
        if "00" <= t { assert t[1..][0] == t[..2][1]; }
        if "62" + t[1..] == "620" + n { assert t[1] == ("62" + t[1..])[2] == '0'; }
      } else {
        IndonesianShape(t, n);
      }
    }
  }

  lemma {:induction false} IndonesianShape(digits: string, n: string)
    ensures CheckShape(digits) == Ok("+62" + n) <==> Subscriber(n) && (digits == "62" + n || digits == "620" + n)
  {
    CheckShapeMeaning(digits);
    assert ("+62" + n)[3..] == n && ("+62" + n)[1..] == "62" + n;
    if "620" <= digits {
      assert digits == "620" + digits[3..];
      assert ("+62" + digits[3..])[3..] == digits[3..];
      assert ("620" + n)[3..] == n;
    } else {
      assert ("+" + digits)[1..] == digits;
      assert ("62" + n)[2..] == n;
      if "62" <= digits {
        assert digits == "62" + digits[2..];
        assert "+" + digits == "+62" + digits[2..];
      }
      if "+" + digits == "+62" + n { assert digits == "62" + n; }
    }
  }

  /** A foreign result comes from exactly one spelling, itself. */
  lemma {:induction false} ForeignPreimage(s: string, d: string)
    requires !("62" <= d)
    ensures NormalizePhone(s) == Ok("+" + d) <==> ForeignNumber(d) && Strip(s) == "+" + d
  {
    var t := Strip(s);
    assert ("+" + d)[1..] == d;
    if "+" <= t {
      assert t == "+" + t[1..];
      ForeignShape(t[1..], d);
    } else if "0" <= t {
      ForeignShape("62" + t[1..], d);
    } else {
      ForeignShape(t, d);
    }
  }

  lemma {:induction false} ForeignShape(digits: string, d: string)
    requires !("62" <= d)
    ensures CheckShape(digits) == Ok("+" + d) <==> ForeignNumber(d) && digits == d
  {
    CheckShapeMeaning(digits);
    assert ("+" + d)[1..] == d && ("+" + digits)[1..] == digits;
    if "620" <= digits {
      assert "+62" + digits[3..] == "+" + ("62" + digits[3..]);
      assert ("+" + ("62" + digits[3..]))[1..] == "62" + digits[3..];
      assert "62" <= digits by { assert digits[..2] == digits[..3][..2]; }
    }
  }
}
