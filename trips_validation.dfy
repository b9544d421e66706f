/** The trip-count rule (src/utils/validation/tripsValidation.ts): a shift has
    between 1 and 35 trips, and a count outside that range is replaced by 0. */
module TripsValidation {
  import opened Js

  const MAX_TRIPS: real := 35.0

  /** `validateTrips`: false when `trips <= 0 || trips > 35`. NaN compares
      false both ways, so it is not rejected. */
  function ValidateTrips(trips: Number): (r: bool)
    ensures r <==> trips.NaN? || 0.0 < trips.val <= MAX_TRIPS
  {
    !(trips.Finite? && (trips.val <= 0.0 || trips.val > MAX_TRIPS))
  }

  /** `normalizeTrips`: 0 above 35 and at or below 0, otherwise the count. */
  function NormalizeTrips(trips: Number): (r: Number)
    ensures trips.Finite? && trips.val > MAX_TRIPS ==> r == Finite(0.0)
    ensures trips.Finite? && trips.val <= 0.0 ==> r == Finite(0.0)
    ensures ValidateTrips(trips) ==> r == trips
    ensures r == Finite(0.0) || ValidateTrips(r)
  {
    if trips.Finite? && trips.val > MAX_TRIPS then Finite(0.0)
    else if trips.Finite? && trips.val <= 0.0 then Finite(0.0)
    else trips
  }

  /** On numbers, a count is valid exactly when 0 < t <= 35. */
  lemma ValidTripsRange(t: real)
    ensures ValidateTrips(Finite(t)) <==> 0.0 < t <= 35.0
    ensures ValidateTrips(Finite(35.0)) && !ValidateTrips(Finite(0.0)) && !ValidateTrips(Finite(36.0))
  {
  }

  /** Normalising twice is normalising once, and the result is 0 or valid. */
  lemma NormalizeTripsIdempotent(t: Number)
    ensures NormalizeTrips(NormalizeTrips(t)) == NormalizeTrips(t)
    ensures NormalizeTrips(t) == t <==> ValidateTrips(t) || t == Finite(0.0)
  {
  }

  /** NaN passes the check and is kept by the normaliser. */
  lemma NaNTrips()
    ensures ValidateTrips(NaN) && NormalizeTrips(NaN) == NaN
  {
  }
}
