/** Names shared by the protocol models. */
module Ids {
  type UserId = nat   // from a sequence that starts at 1
  type Token = nat   // 32 random bytes; stored hashed, and the hash is injective
  type Pid = nat     // one in-flight request
  type Time = int    // seconds; one clock for the application and the database

  lemma {:induction false} SubsetSize(a: set<nat>, b: set<nat>)
    requires a <= b
    ensures |a| <= |b|
  {
    if a != {} {
      var x :| x in a;
      SubsetSize(a - {x}, b - {x});
    }
  }
}
