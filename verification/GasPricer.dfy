/** The L2 gas price: one epoch's recurrence over the reals, and what it does over many epochs. */
module GasPricer {
  import opened Common

  /** The token price ratio, never negative. */
  type Ratio = r: real | r >= 0.0 witness 1.0

  /** One epoch: its average usage, the target, and the ratio, if it could be fetched. */
  datatype Epoch = Epoch(avgGas: real, target: real, ratio: Option<Ratio>)

  function Ceil(x: real): (c: int)
    ensures c as real >= x && (c - 1) as real < x
  {
    -((-x).Floor)
  }

  function MaxNat(a: nat, b: nat): nat {
    if a >= b then a else b
  }

  function MinReal(a: real, b: real): real {
    if a <= b then a else b
  }

  function MaxReal(a: real, b: real): real {
    if a >= b then a else b
  }

  /** How far usage lets the price move, clamped to the allowed change. */
  function Adjustment(m: real, proportion: real): real {
    if proportion >= 1.0 then MinReal(proportion, 1.0 + m) else MaxReal(proportion, 1.0 - m)
  }

  predicate Fails(e: Epoch) {
    e.avgGas < 0.0 || e.target < 1.0 || e.ratio.None?
  }

  /** Usage as a proportion of the target. */
  function Proportion(e: Epoch): real
    requires !Fails(e)
  {
    e.avgGas / e.target
  }

  function Scale(price: real, adjustment: real, ratio: real): real {
    price * adjustment * ratio
  }

  function Updated(cur: nat, adjustment: real, ratio: real): real {
    Scale(MaxNat(1, cur) as real, adjustment, ratio)
  }

  /** Rounds up, and never goes below the floor. */
  function Rounded(floor: nat, updated: real): (p: nat)
    ensures p >= floor && p as real >= updated
    ensures p == floor || (p as real) < updated + 1.0
  {
    MaxNat(floor, if Ceil(updated) >= 0 then Ceil(updated) else 0)
  }

  /** The price of the next epoch. */
  function Next(cur: nat, floor: nat, m: real, e: Epoch): nat
    requires m > 0.0 && !Fails(e)
  {
    Rounded(floor, Updated(cur, Adjustment(m, Proportion(e)), e.ratio.value))
  }

  class GasPricer {
    var curPrice: nat
    var avgGasPerSecondLastEpoch: real
    const floorPrice: nat
    const maxChangePerEpoch: real

    predicate Valid()
      reads this
    {
      1 <= floorPrice <= curPrice && maxChangePerEpoch > 0.0
    }

    constructor (curPrice: nat, floorPrice: nat, maxChange: real)
      requires floorPrice >= 1 && maxChange > 0.0
      ensures Valid() && this.curPrice == MaxNat(curPrice, floorPrice)
      ensures this.floorPrice == floorPrice && this.maxChangePerEpoch == maxChange
    {
      this.curPrice := MaxNat(curPrice, floorPrice);
      this.floorPrice := floorPrice;
      this.maxChangePerEpoch := maxChange;
      avgGasPerSecondLastEpoch := 0.0;
    }

    method CalcNextEpochGasPrice(e: Epoch) returns (r: Option<nat>)
      requires Valid()
      ensures r == if Fails(e) then None else Some(Next(curPrice, floorPrice, maxChangePerEpoch, e))
    {
      if e.avgGas < 0.0 { return None; }
      if e.target < 1.0 { return None; }
      var proportionOfTarget := e.avgGas / e.target;
      var proportionToChangeBy;
      if proportionOfTarget >= 1.0 {
        proportionToChangeBy := MinReal(proportionOfTarget, 1.0 + maxChangePerEpoch);
      } else {
        proportionToChangeBy := MaxReal(proportionOfTarget, 1.0 - maxChangePerEpoch);
      }
      if e.ratio.None? { return None; }
      assert proportionToChangeBy == Adjustment(maxChangePerEpoch, Proportion(e));
      return Some(Rounded(floorPrice, Updated(curPrice, proportionToChangeBy, e.ratio.value)));
    }

    /** A failed epoch leaves the price alone. */
    method CompleteEpoch(e: Epoch) returns (r: Option<nat>)
      requires Valid()
      modifies this
      ensures Valid()
      ensures curPrice == AfterEpoch(old(curPrice), floorPrice, maxChangePerEpoch, e)
      ensures r == if Fails(e) then None else Some(curPrice)
    {
      r := CalcNextEpochGasPrice(e);
      if r.None? { return; }
      curPrice := r.value;
      avgGasPerSecondLastEpoch := e.avgGas;
    }
  }

  /** NewGasPricer checks its configuration first. */
  method NewGasPricer(curPrice: nat, floorPrice: nat, maxChange: real) returns (p: GasPricer?)
    ensures p == null <==> floorPrice < 1 || maxChange <= 0.0
    ensures p != null ==> fresh(p) && p.Valid() && p.curPrice == MaxNat(curPrice, floorPrice)
  {
    if floorPrice < 1 || maxChange <= 0.0 { return null; }
    p := new GasPricer(curPrice, floorPrice, maxChange);
  }

  function AfterEpoch(cur: nat, floor: nat, m: real, e: Epoch): nat
    requires m > 0.0
  {
    if Fails(e) then cur else Next(cur, floor, m, e)
  }

  function Run(cur: nat, floor: nat, m: real, epochs: seq<Epoch>): nat
    requires m > 0.0
  {
    if epochs == [] then cur
    else AfterEpoch(Run(cur, floor, m, epochs[..|epochs| - 1]), floor, m, epochs[|epochs| - 1])
  }

  function Successes(epochs: seq<Epoch>): nat {
    if epochs == [] then 0
    else Successes(epochs[..|epochs| - 1]) + if Fails(epochs[|epochs| - 1]) then 0 else 1
  }

  predicate RatioOne(e: Epoch) {
    e.ratio.Some? ==> e.ratio.value == 1.0
  }

  function Pow(x: real, n: nat): real {
    if n == 0 then 1.0 else Pow(x, n - 1) * x
  }

  // ---- one step ----

  lemma AdjustmentBounds(m: real, q: real)
    requires m > 0.0 && q >= 0.0
    ensures 0.0 <= Adjustment(m, q) <= 1.0 + m
    ensures Adjustment(m, q) >= 1.0 - m
  {
  }

  lemma MulLe(a: real, b: real, k: real)
    requires a <= b && k >= 0.0
    ensures a * k <= b * k && k * a <= k * b
  {
  }

  lemma ProportionNonNegative(e: Epoch)
    requires !Fails(e)
    ensures Proportion(e) >= 0.0
  {
  }

  lemma ScaleBounds(c: real, a: real, m: real)
    requires c >= 1.0 && m > 0.0 && 1.0 - m <= a <= 1.0 + m
    ensures c * (1.0 - m) <= Scale(c, a, 1.0) <= c * (1.0 + m)
    ensures c <= c * (1.0 + m)
  {
    MulLe(a, 1.0 + m, c);
    MulLe(1.0 - m, a, c);
    MulLe(1.0, 1.0 + m, c);
  }

  lemma ScaleMonotone(c: real, a: real, a': real, r: real)
    requires c >= 0.0 && a <= a' && r >= 0.0
    ensures Scale(c, a, r) <= Scale(c, a', r)
  {
    MulLe(a, a', c);
    MulLe(c * a, c * a', r);
  }

  /** One successful epoch at ratio one moves the price by at most the allowed factor, plus rounding. */
  lemma StepBounds(cur: nat, floor: nat, m: real, e: Epoch)
    requires 1 <= floor <= cur && m > 0.0 && !Fails(e) && RatioOne(e)
    ensures Next(cur, floor, m, e) >= floor
    ensures Next(cur, floor, m, e) as real <= cur as real * (1.0 + m) + 1.0
    ensures Next(cur, floor, m, e) as real >= cur as real * (1.0 - m)
  {
    ProportionNonNegative(e);
    AdjustmentBounds(m, Proportion(e));
    ScaleBounds(cur as real, Adjustment(m, Proportion(e)), m);
    assert floor as real <= cur as real;
  }

  lemma AdjustmentMonotone(m: real, q: real, q': real)
    requires m > 0.0 && 0.0 <= q <= q'
    ensures Adjustment(m, q) <= Adjustment(m, q')
  {
  }

  lemma RoundedMonotone(floor: nat, x: real, y: real)
    requires x <= y
    ensures Rounded(floor, x) <= Rounded(floor, y)
  {
  }

  lemma DivMonotone(x: real, y: real, d: real)
    requires x <= y && d >= 1.0
    ensures x / d <= y / d
  {
    assert (y - x) / d >= 0.0;
    assert y / d - x / d == (y - x) / d;
  }

  /** More usage never lowers the next price, at any ratio. */
  lemma MonotoneInUsage(cur: nat, floor: nat, m: real, e: Epoch, more: real)
    requires m > 0.0 && !Fails(e) && e.avgGas <= more
    ensures Next(cur, floor, m, e) <= Next(cur, floor, m, e.(avgGas := more))
  {
    var e' := e.(avgGas := more);
    ProportionNonNegative(e);
    DivMonotone(e.avgGas, more, e.target);
    var c, a, a' := MaxNat(1, cur) as real, Adjustment(m, Proportion(e)), Adjustment(m, Proportion(e'));
    AdjustmentMonotone(m, Proportion(e), Proportion(e'));
    ScaleMonotone(c, a, a', e.ratio.value);
    RoundedMonotone(floor, Updated(cur, a, e.ratio.value), Updated(cur, a', e.ratio.value));
  }

  lemma ScaleAgainstOne(c: real, a: real)
    requires c >= 1.0
    ensures a > 1.0 ==> Scale(c, a, 1.0) > c
    ensures a <= 1.0 ==> Scale(c, a, 1.0) <= c
  {
    if a > 1.0 {
      assert c * (a - 1.0) > 0.0;
    } else {
      MulLe(a, 1.0, c);
    }
  }

  lemma ProportionAgainstOne(e: Epoch)
    requires !Fails(e)
    ensures Proportion(e) > 1.0 <==> e.avgGas > e.target
  {
    var q, d := Proportion(e), e.target;
    assert q * d == e.avgGas;
    if q > 1.0 {
      assert (q - 1.0) * d > 0.0;
    } else {
      MulLe(q, 1.0, d);
    }
  }

  /** At ratio one the price rises exactly when usage was above the target. */
  lemma RisesIffAboveTarget(cur: nat, floor: nat, m: real, e: Epoch)
    requires 1 <= floor <= cur && m > 0.0 && !Fails(e) && RatioOne(e)
    ensures Next(cur, floor, m, e) > cur <==> e.avgGas > e.target
  {
    var a := Adjustment(m, Proportion(e));
    ProportionAgainstOne(e);
    assert a > 1.0 <==> Proportion(e) > 1.0;
    ScaleAgainstOne(cur as real, a);
    RisesIff(cur, floor, Scale(cur as real, a, 1.0));
  }

  lemma RisesIff(cur: nat, floor: nat, x: real)
    requires floor <= cur
    ensures Rounded(floor, x) > cur <==> x > cur as real
  {
  }

  // ---- many epochs ----

  lemma {:induction false} FloorHolds(cur: nat, floor: nat, m: real, epochs: seq<Epoch>)
    requires m > 0.0 && floor <= cur
    ensures Run(cur, floor, m, epochs) >= floor
    decreases |epochs|
  {
    if epochs != [] { FloorHolds(cur, floor, m, epochs[..|epochs| - 1]); }
  }

  /** (p + 1/m) (1 + m)^n - 1/m */
  function Ceiling(p: real, m: real, n: nat): real
    requires m > 0.0
  {
    (p + 1.0 / m) * Pow(1.0 + m, n) - 1.0 / m
  }

  lemma CeilingStep(p0: real, m: real, n: nat, p: real, p': real)
    requires m > 0.0 && p <= Ceiling(p0, m, n) && p' <= p * (1.0 + m) + 1.0
    ensures p' <= Ceiling(p0, m, n + 1)
  {
    var u, g, k := 1.0 / m, p0 + 1.0 / m, Pow(1.0 + m, n);
    assert u * m == 1.0;
    MulLe(p + u, g * k, 1.0 + m);
    assert (p + u) * (1.0 + m) == p * (1.0 + m) + u + u * m;
    assert g * k * (1.0 + m) == g * (k * (1.0 + m));
  }

  lemma GrowthStep(p0: real, p: nat, floor: nat, m: real, e: Epoch, n: nat)
    requires 1 <= floor <= p && m > 0.0 && !Fails(e) && RatioOne(e) && p as real <= Ceiling(p0, m, n)
    ensures Next(p, floor, m, e) as real <= Ceiling(p0, m, n + 1)
  {
    StepBounds(p, floor, m, e);
    CeilingStep(p0, m, n, p as real, Next(p, floor, m, e) as real);
  }

  /** Over any run at ratio one, with n successful epochs among any number of failed ones, the price grows
      at most geometrically: p_n <= (p_0 + 1/m) (1 + m)^n - 1/m. */
  lemma {:induction false} GrowthBound(cur: nat, floor: nat, m: real, epochs: seq<Epoch>)
    requires 1 <= floor <= cur && m > 0.0 && forall e | e in epochs :: RatioOne(e)
    ensures Run(cur, floor, m, epochs) as real <= Ceiling(cur as real, m, Successes(epochs))
    decreases |epochs|
  {
    if epochs != [] {
      var front, e := epochs[..|epochs| - 1], epochs[|epochs| - 1];
      GrowthBound(cur, floor, m, front);
      FloorHolds(cur, floor, m, front);
      if !Fails(e) {
        GrowthStep(cur as real, Run(cur, floor, m, front), floor, m, e, Successes(front));
      }
    }
  }

  /** p d^n */
  function Decayed(p: real, d: real, n: nat): real {
    p * Pow(d, n)
  }

  lemma DecayStep(p0: real, d: real, n: nat, p: real, p': real)
    requires d >= 0.0 && Decayed(p0, d, n) <= p && p * d <= p'
    ensures Decayed(p0, d, n + 1) <= p'
  {
    var k := Pow(d, n);
    MulLe(p0 * k, p, d);
    assert p0 * k * d == p0 * (k * d);
  }

  lemma FallStep(p0: real, p: nat, floor: nat, m: real, e: Epoch, n: nat)
    requires 1 <= floor <= p && 0.0 < m < 1.0 && !Fails(e) && RatioOne(e) && p as real >= Decayed(p0, 1.0 - m, n)
    ensures Next(p, floor, m, e) as real >= Decayed(p0, 1.0 - m, n + 1)
  {
    StepBounds(p, floor, m, e);
    DecayStep(p0, 1.0 - m, n, p as real, Next(p, floor, m, e) as real);
  }

  /** The price falls at most geometrically too: p_n >= p_0 (1 - m)^n when m < 1. */
  lemma {:induction false} DecayBound(cur: nat, floor: nat, m: real, epochs: seq<Epoch>)
    requires 1 <= floor <= cur && 0.0 < m < 1.0 && forall e | e in epochs :: RatioOne(e)
    ensures Run(cur, floor, m, epochs) as real >= Decayed(cur as real, 1.0 - m, Successes(epochs))
    decreases |epochs|
  {
    if epochs != [] {
      var front, e := epochs[..|epochs| - 1], epochs[|epochs| - 1];
      DecayBound(cur, floor, m, front);
      FloorHolds(cur, floor, m, front);
      if !Fails(e) {
        FallStep(cur as real, Run(cur, floor, m, front), floor, m, e, Successes(front));
      }
    }
  }

  // ---- no usage at all ----

  /** An epoch without usage, at ratio one. */
  predicate Idle(e: Epoch) {
    !Fails(e) && e.avgGas == 0.0 && e.ratio.value == 1.0
  }

  /** Nothing is left to fall: at the floor, or one step is less than one unit. */
  predicate AtRest(cur: nat, floor: nat, m: real) {
    cur == floor || cur as real * m < 1.0
  }

  /** Without usage the price strictly falls until it is at rest, and then it stays. */
  lemma IdleStep(cur: nat, floor: nat, m: real, e: Epoch)
    requires 1 <= floor <= cur && m > 0.0 && Idle(e)
    ensures AtRest(cur, floor, m) ==> Next(cur, floor, m, e) == cur
    ensures !AtRest(cur, floor, m) ==> floor <= Next(cur, floor, m, e) < cur
  {
    var x := IdleNext(cur, floor, m, e);
    IdleRounded(cur, floor, m, x);
  }

  lemma IdleNext(cur: nat, floor: nat, m: real, e: Epoch) returns (x: real)
    requires 1 <= floor <= cur && m > 0.0 && Idle(e)
    ensures Next(cur, floor, m, e) == Rounded(floor, x)
    ensures cur as real * m < 1.0 ==> (cur as real) - 1.0 < x <= cur as real
    ensures cur as real * m >= 1.0 ==> x <= (cur as real) - 1.0
  {
    assert Proportion(e) == 0.0;
    x := IdleAmount(cur as real, m);
  }

  lemma IdleRounded(cur: nat, floor: nat, m: real, x: real)
    requires 1 <= floor <= cur
    requires cur as real * m < 1.0 ==> (cur as real) - 1.0 < x <= cur as real
    requires cur as real * m >= 1.0 ==> x <= (cur as real) - 1.0
    ensures AtRest(cur, floor, m) ==> Rounded(floor, x) == cur
    ensures !AtRest(cur, floor, m) ==> floor <= Rounded(floor, x) < cur
  {
    if cur as real * m < 1.0 {
      RoundedToCurrent(floor, cur, x);
    } else {
      RoundedDown(floor, cur, x);
    }
  }

  lemma RoundedToCurrent(floor: nat, cur: nat, x: real)
    requires floor <= cur && (cur as real) - 1.0 < x <= cur as real
    ensures Rounded(floor, x) == cur
  {
  }

  lemma RoundedDown(floor: nat, cur: nat, x: real)
    requires 1 <= floor <= cur && x <= (cur as real) - 1.0
    ensures floor == cur ==> Rounded(floor, x) == cur
    ensures floor < cur ==> floor <= Rounded(floor, x) < cur
  {
  }

  /** The new price before rounding is c - c m, or zero if that is negative. */
  lemma IdleAmount(c: real, m: real) returns (x: real)
    requires c >= 1.0 && m > 0.0
    ensures x == Scale(c, Adjustment(m, 0.0), 1.0)
    ensures c * m < 1.0 ==> c - 1.0 < x <= c
    ensures c * m >= 1.0 ==> x <= c - 1.0
  {
    x := Scale(c, Adjustment(m, 0.0), 1.0);
    if m >= 1.0 {
      MulLe(1.0, m, c);
      assert x == 0.0;
    } else {
      assert c * m > 0.0;
      assert x == c - c * m;
    }
  }

  /** A run without usage comes to rest within cur - floor epochs. */
  lemma {:induction false} IdleSettles(cur: nat, floor: nat, m: real, epochs: seq<Epoch>)
    requires 1 <= floor <= cur && m > 0.0 && forall e | e in epochs :: Idle(e)
    ensures var p := Run(cur, floor, m, epochs);
            floor <= p <= cur && (AtRest(p, floor, m) || p + |epochs| <= cur)
    ensures |epochs| >= cur - floor ==> AtRest(Run(cur, floor, m, epochs), floor, m)
    decreases |epochs|
  {
    if epochs != [] {
      var front, e := epochs[..|epochs| - 1], epochs[|epochs| - 1];
      IdleSettles(cur, floor, m, front);
      IdleStep(Run(cur, floor, m, front), floor, m, e);
    }
  }
}
