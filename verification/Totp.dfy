/** internal/totp: verification of a six-digit code with one step of clock
    drift on either side (RFC 6238, sections 4.2 and 5.2). The HOTP value
    (RFC 4226, section 5.3) is an arbitrary function of secret and counter, so
    several steps may share a code. */
module Totp {
  import opened Outcomes

  /** The library behind the model: the code of a step, and which secrets it can decode. */
  datatype Generator = Generator(hotp: (string, int) -> string, decodes: string -> bool)

  /** What users.totp_secret can hold besides NULL: an intact ciphertext, which
      decrypts to the secret that was sealed, or bytes that do not decrypt. */
  datatype Sealed = Intact(secret: string, nonce: nat) | Damaged(bytes: string)

  function DecryptSecret(stored: Option<Sealed>): Option<string> {
    match stored
    case Some(Intact(secret, _)) => Some(secret)
    case _ => None
  }

  const STEP_SECONDS := 30
  const MAX_SKEW := 1
  const CODE_LENGTH := 6

  /** Go's integer division, which truncates toward zero. */
  function StepOf(unix: int): int {
    if unix >= 0 then unix / STEP_SECONDS else -(-unix / STEP_SECONDS)
  }

  /** The library's ValidateCustom with no skew: an error for a code of the wrong
      length or a secret that does not decode, otherwise an exact comparison. */
  function ValidateCustom(g: Generator, secret: string, code: string, counter: int): Result<bool, ()> {
    if |code| != CODE_LENGTH || !g.decodes(secret) then Err(())
    else Ok(g.hotp(secret, counter) == code)
  }

  /** Counter c, within the drift of `step`, has this code. */
  predicate Candidate(g: Generator, secret: string, code: string, step: int, c: int) {
    step - MAX_SKEW <= c <= step + MAX_SKEW && ValidateCustom(g, secret, code, c) == Ok(true)
  }

  /** The specification of VerifyCode: the largest candidate, if there is one. */
  ghost predicate IsVerdict(g: Generator, secret: string, code: string, step: int, r: Option<int>) {
    match r
    case None => forall c :: !Candidate(g, secret, code, step, c)
    case Some(c) => Candidate(g, secret, code, step, c) && forall d :: Candidate(g, secret, code, step, d) ==> d <= c
  }

  function Verdict(g: Generator, secret: string, code: string, step: int): (r: Option<int>)
    ensures IsVerdict(g, secret, code, step, r)
  {
    if Candidate(g, secret, code, step, step + 1) then Some(step + 1)
    else if Candidate(g, secret, code, step, step) then Some(step)
    else if Candidate(g, secret, code, step, step - 1) then Some(step - 1)
    else None
  }

  /** The code is that of counter c, whose thirty seconds are the clock's own or
      the ones before or after. */
  ghost predicate Timely(g: Generator, secret: string, code: string, unix: int, c: int) {
    30 * (c - 1) <= unix < 30 * (c + 2) && |code| == 6 && g.decodes(secret) && g.hotp(secret, c) == code
  }

  ghost predicate LatestTimely(g: Generator, secret: string, code: string, unix: int, c: int) {
    Timely(g, secret, code, unix, c) && forall d :: Timely(g, secret, code, unix, d) ==> d <= c
  }

  /** Which seconds a step is: thirty of them, and the thirty on either side of
      1970 count as step 0. */
  lemma StepInSeconds(unix: int)
    ensures unix >= 0 ==> 30 * StepOf(unix) <= unix < 30 * StepOf(unix) + 30
    ensures unix < 0 ==> 30 * StepOf(unix) - 30 < unix <= 30 * StepOf(unix)
  {
  }

  /** The verdict in seconds: a counter is it exactly when it is the largest one
      whose code this is and whose step is at most one from the clock's. */
  lemma VerdictInSeconds(g: Generator, secret: string, code: string, unix: int)
    requires unix >= 0
    ensures forall c :: Verdict(g, secret, code, StepOf(unix)) == Some(c) <==> LatestTimely(g, secret, code, unix, c)
    ensures Verdict(g, secret, code, StepOf(unix)) == None <==> forall c :: !Timely(g, secret, code, unix, c)
  {
    StepInSeconds(unix);
    forall c ensures Timely(g, secret, code, unix, c) <==> Candidate(g, secret, code, StepOf(unix), c) {}
  }

  /** The skew loop: offsets +1, 0, -1, with an early return on an error or a match. */
  method VerifyCode(g: Generator, secret: string, code: string, unix: int) returns (r: Option<int>)
    ensures r == Verdict(g, secret, code, StepOf(unix))
    ensures IsVerdict(g, secret, code, StepOf(unix), r)
    ensures unix >= 0 ==> forall c :: r == Some(c) <==> LatestTimely(g, secret, code, unix, c)
    ensures unix >= 0 ==> (r == None <==> forall c :: !Timely(g, secret, code, unix, c))
  {
    if unix >= 0 { VerdictInSeconds(g, secret, code, unix); }
    var step := StepOf(unix);
    var off := MAX_SKEW;
    while off >= -MAX_SKEW
      invariant -MAX_SKEW - 1 <= off <= MAX_SKEW
      invariant forall c | step + off < c :: !Candidate(g, secret, code, step, c)
    {
      var counter := step + off;
      var ok := ValidateCustom(g, secret, code, counter);
      if ok.Err? {
        return None;
      }
      if ok.value {
        return Some(counter);
      }
      off := off - 1;
    }
    return None;
  }

  // ---- consequences for a replay guard ---------------------------------------------

  /** One code, presented for one secret while the clock showed `step`. */
  datatype CodeUse = CodeUse(secret: string, code: string, step: int)

  function VerdictOf(g: Generator, u: CodeUse): Option<int> {
    Verdict(g, u.secret, u.code, u.step)
  }

  predicate SameCode(u: CodeUse, v: CodeUse) {
    u.secret == v.secret && u.code == v.code
  }

  /** If `first` was accepted and the guard has since held at least its counter,
      a resubmission of the same code gets past the guard only at a later step,
      and then only through a counter beyond first's whole window. */
  lemma Resubmission(g: Generator, first: CodeUse, second: CodeUse, guard: int)
    requires SameCode(first, second)
    requires VerdictOf(g, first).Some? && guard >= VerdictOf(g, first).value
    requires VerdictOf(g, second).Some? && VerdictOf(g, second).value > guard
    ensures second.step > first.step && VerdictOf(g, second).value > first.step + MAX_SKEW
  {
    // The first verdict was the largest candidate, so the second counter is none.
    assert !Candidate(g, first.secret, first.code, first.step, VerdictOf(g, second).value);
  }
}
