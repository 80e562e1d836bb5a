/** Go's time.Time and time.Duration, reduced to what the work-time estimator uses. */
module GoTime {

  /** One second and one minute, as time.Duration counts them (nanoseconds). */
  const Second: int := 1_000_000_000
  const Minute: int := 60 * Second

  /** An instant: nanoseconds since Go's zero time (January 1, year 1, 00:00:00 UTC),
      and the identity of the *Location the value carries. Go compares two
      time.Time values with `==` field by field, so equal instants in different
      locations are different values; formatting depends on the location. */
  datatype Time = Time(ns: int, loc: nat)

  /** time.Time{}: the zero instant, in UTC (location 0). */
  const Zero: Time := Time(0, 0)

  /** t.IsZero(): true exactly at the zero instant, whatever the location. */
  predicate IsZero(t: Time) {
    t.ns == 0
  }

  /** t.Add(d): the instant d nanoseconds later, in the same location. */
  function Add(t: Time, d: int): Time {
    Time(t.ns + d, t.loc)
  }

  /** t.Sub(u): the duration from u to t (Go saturates at the int64 bounds; see README). */
  function Sub(t: Time, u: Time): int {
    t.ns - u.ns
  }

  /** t.Before(u) and t.After(u) compare instants only. */
  predicate Before(t: Time, u: Time) {
    t.ns < u.ns
  }

  predicate After(t: Time, u: Time) {
    t.ns > u.ns
  }

  /** Before is a strict order on instants: irreflexive, asymmetric and transitive. */
  lemma BeforeIsStrictOrder(a: Time, b: Time, c: Time)
    ensures !Before(a, a)
    ensures Before(a, b) ==> !Before(b, a)
    ensures Before(a, b) && Before(b, c) ==> Before(a, c)
    ensures After(a, b) <==> Before(b, a)
  {
  }
}
