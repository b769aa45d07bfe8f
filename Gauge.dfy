/**
  `Gauge`: holds the last value it was given. The source's `std::atomic`
  variant is commented out; the plain field is modelled.
 */
module Gauge {
  class Gauge {
    var value: real
    /** The values given since the last reset, most recent last. */
    ghost var History: seq<real>

    /** The value reported: the last one given, or 0 when none was given since the last reset. */
    ghost predicate Valid()
      reads this
    {
      value == if |History| == 0 then 0.0 else History[|History| - 1]
    }

    /** A value-initialised gauge: 0. */
    constructor ()
      ensures Valid() && History == [] && value == 0.0
    {
      value := 0.0;
      History := [];
    }

    /** Back to the zero value. */
    method Reset()
      modifies this
      requires Valid()
      ensures Valid() && History == [] && value == 0.0
    {
      value := 0.0;
      History := [];
    }

    /** Overwrites the value. */
    method Update(v: real)
      modifies this
      requires Valid()
      ensures Valid() && History == old(History) + [v] && value == v
    {
      value := v;
      History := History + [v];
    }

    /** The last value given since the last reset, 0 if there was none; reading changes nothing. */
    function Value(): (r: real)
      reads this
      requires Valid()
      ensures |History| == 0 ==> r == 0.0
      ensures 0 < |History| ==> r == History[|History| - 1]
    {
      value
    }
  }
}
