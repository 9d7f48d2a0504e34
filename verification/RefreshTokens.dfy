/** The states of a token and what the first attempt on it decides. */
module RefreshTokens {
  import opened Wrappers

  type Time = nat

  /** Tokens of a session are numbered in the order they are issued; a pair shares its number. */
  type Id = nat

  datatype RefreshState =
    | Valid
    | Consumed(consumedAt: Time, next: Option<Id>)
    | Revoked(revokedAt: Time)

  function Consume(s: RefreshState, at: Time, replacement: Id): Option<RefreshState> {
    if s.Revoked? then None else Some(Consumed(at, Some(replacement)))
  }

  function Revoke(s: RefreshState, at: Time): Option<RefreshState> {
    if s.Valid? then Some(Revoked(at)) else None
  }

  // One token under any run of attempts

  datatype Attempt = TryConsume(at: Time, replacement: Id) | TryRevoke(at: Time)

  function Try(s: RefreshState, a: Attempt): Option<RefreshState> {
    match a
    case TryConsume(at, replacement) => Consume(s, at, replacement)
    case TryRevoke(at) => Revoke(s, at)
  }

  function After(s: RefreshState, attempts: seq<Attempt>): RefreshState {
    if attempts == [] then s else
    var before := After(s, attempts[..|attempts| - 1]);
    Try(before, attempts[|attempts| - 1]).GetOr(before)
  }

  predicate Accepted(s: RefreshState, attempts: seq<Attempt>, i: nat)
    requires i < |attempts|
  {
    Try(After(s, attempts[..i]), attempts[i]).Some?
  }

  /** The last attempt to consume. */
  function LastConsume(attempts: seq<Attempt>): (last: Option<Attempt>)
    ensures last.Some? ==> last.value.TryConsume? && last.value in attempts
    ensures last.None? ==> forall a :: a in attempts ==> a.TryRevoke?
  {
    if attempts == [] then None
    else if attempts[|attempts| - 1].TryConsume? then Some(attempts[|attempts| - 1])
    else LastConsume(attempts[..|attempts| - 1])
  }

  /**
   * The first attempt decides. A revoked token stays as it is; a consumed one can only be
   * consumed again, and points to its latest replacement.
   */
  lemma {:induction false} FirstAttemptDecides(attempts: seq<Attempt>)
    requires attempts != []
    ensures attempts[0].TryConsume? ==> LastConsume(attempts).Some?
    ensures After(Valid, attempts) ==
              if attempts[0].TryRevoke? then Revoked(attempts[0].at)
              else Consumed(LastConsume(attempts).value.at, Some(LastConsume(attempts).value.replacement))
    ensures forall i :: 0 <= i < |attempts| ==>
              (Accepted(Valid, attempts, i) <==> i == 0 || (attempts[0].TryConsume? && attempts[i].TryConsume?))
  {
    var last := |attempts| - 1;
    assert After(Valid, attempts[..0]) == Valid;
    if last > 0 {
      var sofar := attempts[..last];
      FirstAttemptDecides(sofar);
      forall i | 0 <= i < last ensures Accepted(Valid, attempts, i) == Accepted(Valid, sofar, i) {
        assert sofar[..i] == attempts[..i];
      }
    } else {
      assert attempts[..last] == attempts[..0];
    }
  }
}
