/** The daily query quota: a per-user, per-day counter read from the store and compared with a
    limit that depends on whether the user is registered. */
module Quota {
  import opened Options

  const GuestQueryLimit: nat := 5
  const RegisteredQueryLimit: nat := 100

  /** The limit in force for the user. */
  function Limit(registered: bool): (n: nat)
    ensures n == GuestQueryLimit || n == RegisteredQueryLimit
    ensures registered <==> n == RegisteredQueryLimit
  {
    if registered then RegisteredQueryLimit else GuestQueryLimit
  }

  /** The count an increment starts from. `None` is a day document without a count field; the
      screen reads that as undefined, and an undefined count is incremented from 0. */
  function Prior(count: Option<int>): int {
    Or(count, 0)
  }

  /** The stored count is at or above the limit in force. A missing count is undefined in the
      screen, and an undefined value is never at or above a number. */
  predicate LimitReached(count: Option<int>, registered: bool)
    ensures LimitReached(count, registered) ==> count.Some?
    ensures count.Some? ==> (LimitReached(count, registered) <==> Prior(count) >= Limit(registered))
    ensures !LimitReached(count, registered) ==> Prior(count) < Limit(registered)
  {
    count.Some? && count.value >= Limit(registered)
  }

  /** The count written back after a successful query. */
  function Bump(count: Option<int>): (r: Option<int>)
    ensures r.Some? && r != count
    ensures Prior(r) == Prior(count) + 1
  {
    Some(Prior(count) + 1)
  }

  /** A query the gate lets through never takes the count past the limit. */
  lemma AdmittedStaysWithinLimit(count: Option<int>, registered: bool)
    requires !LimitReached(count, registered)
    ensures Prior(Bump(count)) <= Limit(registered)
  {
  }

  /** Registering never closes the gate: a registered user is refused only at counts at which a
      guest is refused too. */
  lemma RegistrationOnlyRelaxes(count: Option<int>)
    ensures LimitReached(count, true) ==> LimitReached(count, false)
  {
  }
}
