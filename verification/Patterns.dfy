/** Anchored regular expressions of the only kind the phone rules use: a
    sequence of character classes, each with a repetition range. Matching is
    defined by splitting the subject, not by any particular search order. */
module Patterns {

  datatype Class = One(c: char) | Between(lo: char, hi: char)
  {
    predicate Has(x: char) {
      match this
      case One(c) => x == c
      case Between(lo, hi) => lo <= x <= hi
    }
  }

  datatype Atom = Atom(cls: Class, min: nat, max: nat)

  predicate AllIn(cls: Class, s: string) {
    forall i | 0 <= i < |s| :: cls.Has(s[i])
  }

  /** `^p$` matches s. */
  predicate Matches(p: seq<Atom>, s: string) {
    if p == [] then s == ""
    else exists k | p[0].min <= k <= p[0].max && k <= |s| :: AllIn(p[0].cls, s[..k]) && Matches(p[1..], s[k..])
  }

  /** `^p` matches a prefix of s. */
  predicate MatchesPrefix(p: seq<Atom>, s: string) {
    exists k | 0 <= k <= |s| :: Matches(p, s[..k])
  }

  function Literal(s: string): seq<Atom> {
    if s == "" then [] else [Atom(One(s[0]), 1, 1)] + Literal(s[1..])
  }

  lemma {:induction false} MatchesOne(cls: Class, p: seq<Atom>, s: string)
    ensures Matches([Atom(cls, 1, 1)] + p, s) <==> |s| >= 1 && cls.Has(s[0]) && Matches(p, s[1..])
  {
    var q := [Atom(cls, 1, 1)] + p;
    assert q[0] == Atom(cls, 1, 1) && q[1..] == p;
    if |s| >= 1 && cls.Has(s[0]) && Matches(p, s[1..]) {
      assert AllIn(cls, s[..1]);
    }
    if Matches(q, s) {
      var k :| 1 <= k <= 1 && k <= |s| && AllIn(cls, s[..k]) && Matches(q[1..], s[k..]);
      assert s[0] == s[..k][0];
    }
  }

  lemma {:induction false} MatchesLast(cls: Class, min: nat, max: nat, s: string)
    ensures Matches([Atom(cls, min, max)], s) <==> min <= |s| <= max && AllIn(cls, s)
  {
    var q := [Atom(cls, min, max)];
    assert q[1..] == [];
    assert s[..|s|] == s;
    if min <= |s| <= max && AllIn(cls, s) {
      assert s[|s|..] == "" && Matches(q[1..], s[|s|..]);
    }
    if Matches(q, s) {
      var k :| min <= k <= max && k <= |s| && AllIn(cls, s[..k]) && Matches(q[1..], s[k..]);
      assert s[k..] == "";
    }
  }

  /** A literal in front of a pattern matches exactly the strings that start
      with it and continue with a match. */
  lemma {:induction false} MatchesLiteral(lit: string, p: seq<Atom>, s: string)
    ensures Matches(Literal(lit) + p, s) <==> lit <= s && Matches(p, s[|lit|..])
    decreases lit
  {
    if lit == "" {
      assert Literal(lit) + p == p && s[|lit|..] == s;
    } else {
      var rest := lit[1..];
      assert Literal(lit) + p == [Atom(One(lit[0]), 1, 1)] + (Literal(rest) + p);
      MatchesOne(One(lit[0]), Literal(rest) + p, s);
      if |s| >= 1 {
        MatchesLiteral(rest, p, s[1..]);
        if s[0] == lit[0] && rest <= s[1..] {
          assert s[1..][|rest|..] == s[|lit|..];
          assert lit == [lit[0]] + rest && s == [s[0]] + s[1..];
        }
        if lit <= s {
          assert rest == s[..|lit|][1..] == s[1..][..|rest|];
          assert s[1..][|rest|..] == s[|lit|..];
        }
      }
    }
  }

  lemma {:induction false} PrefixLiteral(lit: string, s: string)
    ensures MatchesPrefix(Literal(lit), s) <==> lit <= s
  {
    assert Literal(lit) + [] == Literal(lit);
    forall k | 0 <= k <= |s|
      ensures Matches(Literal(lit), s[..k]) <==> lit == s[..k]
    {
      MatchesLiteral(lit, [], s[..k]);
      if lit <= s[..k] && Matches([], s[..k][|lit|..]) {
        assert s[..k] == lit + s[..k][|lit|..];
      }
    }
    if lit <= s {
      assert s[..|lit|] == lit;
      assert Matches(Literal(lit), s[..|lit|]);
    }
  }
}
