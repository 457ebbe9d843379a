/** A fair or weighted die: construction-time validation and the range of a roll.

    The class hierarchy of the source (an abstract base with a fair and a
    weighted subclass) becomes one datatype with two variants. A weighted die
    keeps its `sides` attribute only when the constructor assigned it, so the
    attribute is an `Option`. Which face a roll produces is left open: a roll
    is any face of the die. */
module Dice {
  import opened Outcomes

  const MIN_SIDES := 1
  const MAX_SIDES := 100

  datatype Die =
    | Fair(sides: int)
    | Weighted(sidesAttr: Option<int>, weights: seq<real>)

  predicate InRange(sides: int) { MIN_SIDES <= sides <= MAX_SIDES }

  /** Whether the die object has a `sides` attribute to roll with. */
  predicate HasSides(d: Die) {
    d.Fair? || d.sidesAttr.Some?
  }

  function SidesOf(d: Die): int
    requires HasSides(d)
  {
    if d.Fair? then d.sides else d.sidesAttr.value
  }

  /** `v` is a face that rolling `d` can show. */
  predicate IsFace(d: Die, v: int) {
    HasSides(d) && 1 <= v <= SidesOf(d)
  }

  /** The dice the two constructors can produce. */
  predicate WellFormed(d: Die) {
    match d
    case Fair(s) => InRange(s)
    case Weighted(Some(s), w) => InRange(s) && |w| == s
    case Weighted(None, w) => |w| > MAX_SIDES
  }

  /** `Dice(sides)`: accepted exactly for sides in [1, 100], which are stored unchanged. */
  function NewDice(sides: int): (r: Result<Die>)
    ensures r.Ok? <==> InRange(sides)
    ensures r.Ok? ==> WellFormed(r.value) && HasSides(r.value) && SidesOf(r.value) == sides
    ensures r.Ok? ==> forall v :: IsFace(r.value, v) <==> 1 <= v <= sides
    ensures r.Err? ==> r.error == ValueError
  {
    if InRange(sides) then Ok(Fair(sides)) else Err(ValueError)
  }

  /** `WeightedDice(sides, weights)`. `sumIsOne` is the outcome of the floating
      point test `sum(weights) == 1`, which the model does not compute; the sum
      of no weights is the integer 0, so that test is false for empty weights.
      Only the weights are checked: the range of `sides` decides whether the
      attribute is assigned, never whether construction fails. */
  function NewWeightedDice(sides: int, weights: seq<real>, sumIsOne: bool): (r: Result<Die>)
    requires weights == [] ==> !sumIsOne
    ensures r.Ok? <==> |weights| == sides && sumIsOne
    ensures r.Ok? ==> WellFormed(r.value) && r.value.Weighted? && r.value.weights == weights
    ensures r.Ok? ==> (HasSides(r.value) <==> InRange(sides))
    ensures r.Ok? && HasSides(r.value) ==> SidesOf(r.value) == sides
    ensures r.Err? ==> r.error == ValueError
  {
    if |weights| == sides && sumIsOne then
      Ok(Weighted(if InRange(sides) then Some(sides) else None, weights))
    else
      Err(ValueError)
  }

  /** One roll of `d`: some face of the die, or AttributeError when the die has
      no `sides`. Which face is chosen (uniformly, or by weight) is not modelled. */
  method RollDie(d: Die) returns (r: Result<int>)
    requires WellFormed(d)
    ensures r.Ok? <==> HasSides(d)
    ensures r.Ok? ==> IsFace(d, r.value)
    ensures r.Err? ==> r.error == AttributeError
  {
    match d
    case Fair(s) =>
      var v :| 1 <= v <= s;
      r := Ok(v);
    case Weighted(Some(s), _) =>
      var v :| 1 <= v <= s;
      r := Ok(v);
    case Weighted(None, _) =>
      r := Err(AttributeError);
  }

  /** The two constructors disagree on range checking: with well-formed weights
      a weighted die of any side count above 100 is accepted where a fair one
      is refused, and it cannot be rolled. */
  lemma WeightedAcceptsOutOfRange(sides: int, weights: seq<real>)
    requires sides > MAX_SIDES && |weights| == sides
    ensures NewDice(sides).Err?
    ensures NewWeightedDice(sides, weights, true).Ok?
    ensures !HasSides(NewWeightedDice(sides, weights, true).value)
    ensures forall v :: !IsFace(NewWeightedDice(sides, weights, true).value, v)
  {
  }
}
