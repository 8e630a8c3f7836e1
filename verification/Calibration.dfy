/**
 The calibration the two decay-driven passes share. Retirement proposes entries whose factor
 is below the floor, revalidation those at or above it; both floors and both priors must be
 equal in a configuration that validates.

 Numbers are floating-point values without rounding: a real, an infinity, or not a number.
 The passes test the factor with opposite comparisons, so an entry whose factor is not a
 number is a candidate of both.
 */
module Calibrating {

  datatype Float = Fin(r: real) | Infinite(negative: bool) | NaN

  predicate Less(x: Float, y: Float) {
    match (x, y)
    case (NaN, _) => false
    case (_, NaN) => false
    case (Fin(a), Fin(b)) => a < b
    case (Fin(_), Infinite(neg)) => !neg
    case (Infinite(neg), Fin(_)) => neg
    case (Infinite(n1), Infinite(n2)) => n1 && !n2
  }

  predicate Equal(x: Float, y: Float) { x == y && x != NaN }

  predicate AtLeast(x: Float, y: Float) { Less(y, x) || Equal(x, y) }

  /** A finite value plus another. */
  function Plus(a: real, y: Float): Float { if y.Fin? then Fin(a + y.r) else y }

  function Half(y: Float): Float { if y.Fin? then Fin(y.r / 2.0) else y }

  function Over(x: Float, y: Float): Float {
    match (x, y)
    case (Fin(a), Fin(b)) =>
      if b != 0.0 then Fin(a / b) else if a > 0.0 then Infinite(false) else if a < 0.0 then Infinite(true) else NaN
    case (Fin(_), Infinite(_)) => Fin(0.0)
    case (Infinite(neg), Fin(b)) => Infinite(neg != (b < 0.0))
    case (_, _) => NaN
  }

  // ---- The ledger's roll-up -------------------------------------------------------------------

  /** `confirmed` says whether the date of a resolved recall is on record. */
  datatype Aggregate = Aggregate(
    recalls: nat, resolved: nat, up: nat, down: nat, confirms: nat, verified: nat, failed: nat, confirmed: bool)

  predicate HasEvidence(a: Aggregate) {
    a.resolved > 0 || a.up > 0 || a.down > 0 || a.confirms > 0 || a.verified > 0 || a.failed > 0
  }

  function Successes(a: Aggregate): nat { a.resolved + a.up + a.verified }

  function Observations(a: Aggregate): nat { a.recalls + a.up + a.down + a.verified + a.failed }

  /** The posterior mean of the success rate under a symmetric prior of strength k. */
  function Factor(a: Aggregate, k: Float): Float {
    var c := 0.5 * a.confirms as real;
    Over(Plus(Successes(a) as real + c, Half(k)), Plus(Observations(a) as real + c, k))
  }

  // ---- Configuration ------------------------------------------------------------------------------

  datatype Retirement = Retirement(enabled: bool, minObservations: int, floor: Float, prior: Float)

  datatype Revalidation = Revalidation(enabled: bool, minInterval: int, maxOpen: int, floor: Float, prior: Float)

  datatype Config = Config(retirement: Retirement, revalidation: Revalidation)

  const HOURS_720 := 720 * 3600 * 1000000000

  predicate IsZero(x: Float) { x == Fin(0.0) }

  function Or(x: Float, d: Float): Float { if IsZero(x) then d else x }

  function ApplyDefaults(c: Config): Config {
    var r := if !c.retirement.enabled then c.retirement else
               c.retirement.(
                 minObservations := if c.retirement.minObservations == 0 then 3 else c.retirement.minObservations,
                 floor := Or(c.retirement.floor, Fin(0.5)), prior := Or(c.retirement.prior, Fin(2.0)));
    var v := if !c.revalidation.enabled then c.revalidation else
               c.revalidation.(
                 minInterval := if c.revalidation.minInterval == 0 then HOURS_720 else c.revalidation.minInterval,
                 maxOpen := if c.revalidation.maxOpen == 0 then 5 else c.revalidation.maxOpen,
                 floor := Or(Or(c.revalidation.floor, r.floor), Fin(0.5)),
                 prior := Or(Or(c.revalidation.prior, r.prior), Fin(2.0)));
    Config(r, v)
  }

  predicate FloorRefused(x: Float) { Less(x, Fin(0.0)) || IsZero(x) || Less(Fin(1.0), x) }

  predicate Validates(c: Config) {
    var (r, v) := (c.retirement, c.revalidation);
    && (r.enabled ==> !FloorRefused(r.floor) && r.minObservations >= 1)
    && (v.enabled ==> !FloorRefused(v.floor) && v.minInterval > 0 && v.maxOpen >= 1)
    && (r.enabled && v.enabled ==> Equal(r.floor, v.floor) && Equal(r.prior, v.prior))
  }

  /** A configuration that defaults and validation let through, with both passes on. */
  predicate BothOn(c: Config) {
    Validates(ApplyDefaults(c)) && c.retirement.enabled && c.revalidation.enabled
  }

  // ---- Candidates -----------------------------------------------------------------------------------

  predicate RetireCandidate(r: Retirement, a: Aggregate, live: bool) {
    (HasEvidence(a) || live) && Observations(a) >= r.minObservations && !AtLeast(Factor(a, r.prior), r.floor)
  }

  predicate RevalidateCandidate(v: Revalidation, a: Aggregate) {
    a.resolved != 0 && a.confirmed && !Less(Factor(a, v.prior), v.floor)
  }

  predicate Overlaps(c: Config, a: Aggregate, live: bool) {
    var d := ApplyDefaults(c);
    RetireCandidate(d.retirement, a, live) && RevalidateCandidate(d.revalidation, a)
  }

  /** One entry is a candidate of both passes exactly when nothing else spares it and its factor is not a
      number. */
  lemma OverlapIsNaN(c: Config, a: Aggregate, live: bool)
    requires BothOn(c)
    ensures var d := ApplyDefaults(c);
            Overlaps(c, a, live) <==>
            && Factor(a, d.retirement.prior) == NaN
            && a.resolved != 0 && a.confirmed && Observations(a) >= d.retirement.minObservations
  {
    var d := ApplyDefaults(c);
    assert d.retirement.prior == d.revalidation.prior && d.retirement.floor == d.revalidation.floor;
  }

  /** The priors under which some ledger makes the factor 0/0 or infinity over infinity for an entry both
      passes would consider: an infinite one, or a negative even integer not above minus the bar. */
  predicate Collides(prior: Float, minObservations: int) {
    match prior
    case NaN => false
    case Infinite(_) => true
    case Fin(k) => k < 0.0 && IsWhole(k / 2.0) && -k >= minObservations as real
  }

  predicate IsWhole(x: real) { x.Floor as real == x }

  /** A colliding prior has a ledger entry that both passes propose. */
  function Witness(prior: Float, minObservations: int): Aggregate
    requires Collides(prior, minObservations)
  {
    match prior
    case Infinite(_) => Aggregate(if minObservations > 1 then minObservations else 1, 1, 0, 0, 0, 0, 0, true)
    case Fin(k) =>
      var half := -(k / 2.0).Floor;
      assert half > 0;
      Aggregate(2 * half, half, 0, 0, 0, 0, 0, true)
  }

  lemma NaNFactorCollides(a: Aggregate, k: Float, minObservations: int)
    requires Factor(a, k) == NaN && k != NaN && a.resolved != 0 && Observations(a) >= minObservations
    ensures Collides(k, minObservations)
  {
    if k.Fin? {
      var c := 0.5 * a.confirms as real;
      assert Successes(a) as real + c + k.r / 2.0 == 0.0 && Observations(a) as real + c + k.r == 0.0;
      HalfIsWhole(Successes(a), Observations(a), a.confirms, k.r);
    }
  }

  lemma HalfIsWhole(s: nat, n: nat, confirms: nat, k: real)
    requires s as real + 0.5 * confirms as real + k / 2.0 == 0.0
    requires n as real + 0.5 * confirms as real + k == 0.0
    ensures IsWhole(k / 2.0) && -k >= n as real && (s > 0 ==> k < 0.0)
  {
    var half: int := (s as int) - (n as int);
    assert half as real == s as real - n as real;
    assert k / 2.0 == half as real;
  }

  lemma WitnessOverlaps(c: Config, live: bool)
    requires BothOn(c) && var r := ApplyDefaults(c).retirement; Collides(r.prior, r.minObservations)
    ensures var r := ApplyDefaults(c).retirement; Overlaps(c, Witness(r.prior, r.minObservations), live)
  {
    var r := ApplyDefaults(c).retirement;
    var a := Witness(r.prior, r.minObservations);
    if r.prior.Fin? {
      assert a.resolved as real == -(r.prior.r / 2.0);
      assert Observations(a) as real == -r.prior.r;
    }
    OverlapIsNaN(c, a, live);
  }

  /** When the two passes are disjoint on every ledger: exactly when the effective prior does not collide. */
  lemma DisjointIff(c: Config)
    requires BothOn(c)
    ensures (forall a, live :: !Overlaps(c, a, live)) <==>
            var r := ApplyDefaults(c).retirement; !Collides(r.prior, r.minObservations)
  {
    var r := ApplyDefaults(c).retirement;
    if Collides(r.prior, r.minObservations) {
      WitnessOverlaps(c, true);
    } else {
      forall a, live ensures !Overlaps(c, a, live) {
        OverlapIsNaN(c, a, live);
        if Overlaps(c, a, live) { NaNFactorCollides(a, r.prior, r.minObservations); }
      }
    }
  }

  /** A positive finite prior, the default among them, keeps the passes disjoint. */
  lemma PositivePriorIsDisjoint(c: Config, a: Aggregate, live: bool)
    requires BothOn(c) && var k := ApplyDefaults(c).retirement.prior; k.Fin? && k.r > 0.0
    ensures !Overlaps(c, a, live)
  {
    DisjointIff(c);
  }

  /** Disjointness is not promised by validation alone: a prior of -2 passes it, and an entry recalled twice
      and resolved once is then proposed by both. */
  lemma PriorIsNotValidated()
    ensures var c := Config(Retirement(true, 2, Fin(0.5), Fin(-2.0)), Revalidation(true, 1, 1, Fin(0.5), Fin(-2.0)));
            BothOn(c) && Overlaps(c, Aggregate(2, 1, 0, 0, 0, 0, 0, true), true)
  {
    var c := Config(Retirement(true, 2, Fin(0.5), Fin(-2.0)), Revalidation(true, 1, 1, Fin(0.5), Fin(-2.0)));
    assert Factor(Aggregate(2, 1, 0, 0, 0, 0, 0, true), Fin(-2.0)) == NaN;
  }
}
