/** The warehouse-location problem (library/problems/warehouse.py): the
    validator of an explicit representation, the bounding-box random
    initialiser and the constructor that chooses between them. The fitness
    (a cost-weighted sum of Euclidean distances) stays an abstract function
    of the representation. */
module Warehouse {
  import opened Wrappers
  import opened Vectors
  import opened Solution

  /** One element of a representation the caller passes in: a Python float
      (or a numpy float64, a subclass of it), an int (bool included, being a subclass of
      int), or anything else (a string, None, a nested sequence, ...). */
  datatype Scalar = Float(x: real) | Int(n: int) | Other

  /** A representation as the caller passes it: a list, a tuple, or some
      value that is neither. */
  datatype Raw = ListOf(items: seq<Scalar>) | TupleOf(items: seq<Scalar>) | NotSequence

  /** The `ValueError`s the constructor can raise. */
  datatype Error = NotListOrTuple | NotTwoValues | NotFloat | NoCustomerLocations | CannotBroadcast

  datatype Location = Location(lat: real, lon: real)

  /** The six `random.random()` samples behind the six `random.uniform`
      calls of `random_initial_representation`, in call order. */
  datatype UnitDraws = UnitDraws(alphaLat: real, betaLat: real, alphaLon: real, betaLon: real, lat: real, lon: real)

  predicate InUnitRange(u: real)
  {
    0.0 <= u < 1.0
  }

  predicate DrawsInRange(d: UnitDraws)
  {
    && InUnitRange(d.alphaLat) && InUnitRange(d.betaLat)
    && InUnitRange(d.alphaLon) && InUnitRange(d.betaLon)
    && InUnitRange(d.lat) && InUnitRange(d.lon)
  }

  predicate Numeric(s: Scalar)
  {
    s.Float? || s.Int?
  }

  function AsReal(s: Scalar): real
    requires Numeric(s)
  {
    if s.Float? then s.x else s.n as real
  }

  predicate AllNumeric(items: seq<Scalar>)
  {
    forall i :: 0 <= i < |items| ==> Numeric(items[i])
  }

  predicate SomeFloat(items: seq<Scalar>)
  {
    exists i :: 0 <= i < |items| && items[i].Float?
  }

  /** `np.array(items)`: a mixture of ints and floats is promoted to an array
      of floats; any other mixture keeps the kinds of its elements (ints stay
      ints, and an array holding a non-number holds no float coordinates). */
  function ToArray(items: seq<Scalar>): (arr: seq<Scalar>)
    ensures |arr| == |items|
    ensures (forall i :: 0 <= i < |arr| ==> arr[i].Float?) <==> |items| == 0 || (AllNumeric(items) && SomeFloat(items))
    ensures forall i :: 0 <= i < |arr| && arr[i].Float? ==> Numeric(items[i]) && arr[i].x == AsReal(items[i])
  {
    if AllNumeric(items) && SomeFloat(items) then
      seq(|items|, i requires 0 <= i < |items| => Float(AsReal(items[i])))
    else
      assert |items| > 0 && items[0].Float? ==> SomeFloat(items);
      items
  }

  /** `_validate_repr`: only a list or a tuple of exactly two float
      coordinates (after numpy's conversion) is accepted, and it comes back
      with the same two values in the same order. */
  function ValidateRepr(raw: Raw): (r: Result<Vector, Error>)
    ensures raw.NotSequence? ==> r == Failure(NotListOrTuple)
    ensures !raw.NotSequence? && |raw.items| != 2 ==> r == Failure(NotTwoValues)
    ensures !raw.NotSequence? && |raw.items| == 2 && r.Failure? ==> r.error == NotFloat
    ensures r.Success? <==> !raw.NotSequence? && |raw.items| == 2 && AllNumeric(raw.items) && SomeFloat(raw.items)
    ensures r.Success? ==> |r.value| == 2 && forall i :: 0 <= i < 2 ==> r.value[i] == AsReal(raw.items[i])
  {
    if raw.NotSequence? then Failure(NotListOrTuple)
    else
      var arr := ToArray(raw.items);
      if |arr| != 2 then Failure(NotTwoValues)
      else if !(forall i :: 0 <= i < |arr| ==> arr[i].Float?) then Failure(NotFloat)
      else Success(seq(|arr|, i requires 0 <= i < |arr| => arr[i].x))
  }

  /** Python truthiness of `repr`: `None` and an empty list or tuple are
      false; a value that is not a sequence is taken to be true. */
  predicate Truthy(given: Option<Raw>)
  {
    given.Some? && (given.value.NotSequence? || |given.value.items| > 0)
  }

  /** What `__init__` forwards to the base constructor (lines 26-33):
      validation runs only when `repr` is truthy; `None` is forwarded as
      `None`, and an empty list or tuple unvalidated as the empty vector. */
  function ForwardedRepr(given: Option<Raw>): (r: Result<Option<Vector>, Error>)
    ensures !Truthy(given) ==> r.Success?
    ensures given.None? ==> r == Success(None)
    ensures given.Some? && !Truthy(given) ==> r == Success(Some([]))
    ensures Truthy(given) ==> (r.Success? <==> ValidateRepr(given.value).Success?)
    ensures Truthy(given) && r.Success? ==> r.value == Some(ValidateRepr(given.value).value)
    ensures Truthy(given) && r.Failure? ==> r.error == ValidateRepr(given.value).error
  {
    if !Truthy(given) then
      if given.None? then Success(None) else Success(Some([]))
    else
      match ValidateRepr(given.value)
      case Success(v) => Success(Some(v))
      case Failure(e) => Failure(e)
  }

  /** Python's `min` over a non-empty sequence. */
  function Minimum(s: seq<real>): (m: real)
    requires |s| > 0
    ensures forall i :: 0 <= i < |s| ==> m <= s[i]
    ensures exists i :: 0 <= i < |s| && s[i] == m
    decreases |s|
  {
    if |s| == 1 then s[0]
    else
      var rest := Minimum(s[1..]);
      assert forall i :: 1 <= i < |s| ==> s[i] == s[1..][i - 1];
      if s[0] <= rest then s[0] else rest
  }

  /** Python's `max` over a non-empty sequence. */
  function Maximum(s: seq<real>): (m: real)
    requires |s| > 0
    ensures forall i :: 0 <= i < |s| ==> s[i] <= m
    ensures exists i :: 0 <= i < |s| && s[i] == m
    decreases |s|
  {
    if |s| == 1 then s[0]
    else
      var rest := Maximum(s[1..]);
      assert forall i :: 1 <= i < |s| ==> s[i] == s[1..][i - 1];
      if s[0] >= rest then s[0] else rest
  }

  function Lats(customers: seq<Location>): (lats: seq<real>)
    ensures |lats| == |customers| && forall i :: 0 <= i < |customers| ==> lats[i] == customers[i].lat
  {
    seq(|customers|, i requires 0 <= i < |customers| => customers[i].lat)
  }

  function Lons(customers: seq<Location>): (lons: seq<real>)
    ensures |lons| == |customers| && forall i :: 0 <= i < |customers| ==> lons[i] == customers[i].lon
  {
    seq(|customers|, i requires 0 <= i < |customers| => customers[i].lon)
  }

  /** `d * random.random()`. */
  function Scaled(d: real, u: real): real
  {
    d * u
  }

  /** A non-negative length scaled by a unit sample stays within it. */
  lemma NonNegativeScaled(e: real, u: real)
    requires InUnitRange(u) && 0.0 <= e
    ensures 0.0 <= Scaled(e, u) <= e
  {
    assert e * (1.0 - u) == e - e * u;
    assert e * u >= 0.0 * u;
    assert e * (1.0 - u) >= 0.0 * (1.0 - u);
  }

  /** A length of either sign scaled by a unit sample lies between zero and
      the length. */
  lemma ScaledBounds(d: real, u: real)
    requires InUnitRange(u)
    ensures 0.0 <= d ==> 0.0 <= Scaled(d, u) <= d
    ensures d <= 0.0 ==> d <= Scaled(d, u) <= 0.0
  {
    if 0.0 <= d {
      NonNegativeScaled(d, u);
    } else {
      NonNegativeScaled(-d, u);
      assert Scaled(d, u) == -Scaled(-d, u);
    }
  }

  /** `random.uniform(a, b)`, which is `a + (b - a) * random.random()`: the
      value lies between `a` and `b`, in whichever order they come. */
  function Uniform(a: real, b: real, u: real): (r: real)
    requires InUnitRange(u)
    ensures a <= b ==> a <= r <= b
    ensures b <= a ==> b <= r <= a
  {
    ScaledBounds(b - a, u);
    a + Scaled(b - a, u)
  }

  /** `random_initial_representation`: a location inside the bounding box of
      the customer locations, drawn between two bounds that are each drawn
      from that box and put in order by the swaps. */
  method RandomInitialRepresentation(customerLocations: seq<Location>, draws: UnitDraws)
    returns (res: Result<Vector, Error>)
    requires DrawsInRange(draws)
    ensures res.Failure? <==> |customerLocations| == 0
    ensures res.Failure? ==> res.error == NoCustomerLocations
    ensures res.Success? ==> |res.value| == 2
    ensures res.Success? ==>
      && Minimum(Lats(customerLocations)) <= res.value[0] <= Maximum(Lats(customerLocations))
      && Minimum(Lons(customerLocations)) <= res.value[1] <= Maximum(Lons(customerLocations))
    ensures res.Success? ==>
      var lats, lons := Lats(customerLocations), Lons(customerLocations);
      var aLat := Uniform(Minimum(lats), Maximum(lats), draws.alphaLat);
      var bLat := Uniform(Minimum(lats), Maximum(lats), draws.betaLat);
      var aLon := Uniform(Minimum(lons), Maximum(lons), draws.alphaLon);
      var bLon := Uniform(Minimum(lons), Maximum(lons), draws.betaLon);
      && res.value[0] == Uniform(if aLat <= bLat then aLat else bLat, if aLat <= bLat then bLat else aLat, draws.lat)
      && res.value[1] == Uniform(if aLon <= bLon then aLon else bLon, if aLon <= bLon then bLon else aLon, draws.lon)
  {
    if |customerLocations| == 0 {
      // `lats, lons = zip(*[])` has nothing to unpack
      return Failure(NoCustomerLocations);
    }
    var lats, lons := Lats(customerLocations), Lons(customerLocations);
    var minLat, maxLat := Minimum(lats), Maximum(lats);
    var minLon, maxLon := Minimum(lons), Maximum(lons);
    assert minLat <= lats[0] <= maxLat && minLon <= lons[0] <= maxLon;

    var alphaLat, betaLat := Uniform(minLat, maxLat, draws.alphaLat), Uniform(minLat, maxLat, draws.betaLat);
    var alphaLon, betaLon := Uniform(minLon, maxLon, draws.alphaLon), Uniform(minLon, maxLon, draws.betaLon);

    if alphaLat > betaLat {
      alphaLat, betaLat := betaLat, alphaLat;
    }
    if alphaLon > betaLon {
      alphaLon, betaLon := betaLon, alphaLon;
    }
    assert minLat <= alphaLat <= betaLat <= maxLat;
    assert minLon <= alphaLon <= betaLon <= maxLon;

    res := Success([Uniform(alphaLat, betaLat, draws.lat), Uniform(alphaLon, betaLon, draws.lon)]);
  }

  /** The base constructor evaluates `fitness()` once (library/solution.py:33),
      and the fitness subtracts the representation from the array of customer
      rows (line 48). numpy broadcasts that only against at least one
      two-coordinate row and a representation of length 1 or 2; with no rows
      the array is one-dimensional and the distance along axis 1 raises. */
  predicate Broadcastable(customerLocations: seq<Location>, repr: Vector)
  {
    |customerLocations| > 0 && (|repr| == 1 || |repr| == 2)
  }

  /** `WarehousePSOSolution(customer_locations, delivery_cost, repr)`:
      validate `repr` if it is truthy, then build the PSO particle from it,
      or from a random location when it is `None`. `fitness` is this
      instance's fitness. */
  method NewParticle(customerLocations: seq<Location>, fitness: Vector -> real, given: Option<Raw>, draws: UnitDraws)
    returns (res: Result<Particle, Error>)
    requires DrawsInRange(draws)
    ensures ForwardedRepr(given).Failure? ==> res == Failure(ForwardedRepr(given).error)
    ensures ForwardedRepr(given).Success? && ForwardedRepr(given).value.None? ==>
      (res.Failure? <==> |customerLocations| == 0)
    ensures ForwardedRepr(given).Success? && ForwardedRepr(given).value.None? && res.Failure? ==>
      res.error == NoCustomerLocations
    ensures ForwardedRepr(given).Success? && ForwardedRepr(given).value.Some? ==>
      (res.Success? <==> Broadcastable(customerLocations, ForwardedRepr(given).value.value))
    ensures ForwardedRepr(given).Success? && ForwardedRepr(given).value.Some? && res.Failure? ==>
      res.error == CannotBroadcast
    ensures ForwardedRepr(given).Success? && ForwardedRepr(given).value.Some? && res.Success? ==>
      res.value.repr == ForwardedRepr(given).value.value
    ensures given.Some? && !Truthy(given) ==> res == Failure(CannotBroadcast)
    ensures res.Success? ==> |customerLocations| > 0 && |res.value.repr| == 2
    ensures res.Success? && given.None? ==>
      && |res.value.repr| == 2
      && Minimum(Lats(customerLocations)) <= res.value.repr[0] <= Maximum(Lats(customerLocations))
      && Minimum(Lons(customerLocations)) <= res.value.repr[1] <= Maximum(Lons(customerLocations))
    ensures res.Success? ==> fresh(res.value)
    ensures res.Success? ==>
      && res.value.bestRepr == res.value.repr
      && res.value.bestFitness == fitness(res.value.repr)
      && res.value.velocity == Zeros(|res.value.repr|)
  {
    var forwarded := ForwardedRepr(given);
    if forwarded.Failure? {
      return Failure(forwarded.error);
    }
    // Only consulted by the base constructor when no representation is forwarded.
    var randomRepr: Vector := [];
    if forwarded.value.None? {
      var generated := RandomInitialRepresentation(customerLocations, draws);
      if generated.Failure? {
        return Failure(generated.error);
      }
      randomRepr := generated.value;
    }
    var repr := if forwarded.value.Some? then forwarded.value.value else randomRepr;
    if !Broadcastable(customerLocations, repr) {
      // the first `fitness()` call raises before the particle is complete
      return Failure(CannotBroadcast);
    }
    var particle := new Particle(forwarded.value, randomRepr, fitness);
    return Success(particle);
  }
}
