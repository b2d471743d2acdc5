/**
 * `ScaledRecipe` (data.py:306-334): a recipe run at some scale, whose scale
 * is raised to meet demanded product rates (`scale_for_min_rpm`) and rounded
 * up to whole stations (`ceil_scale`).
 */
module Scaling {
  import opened Wrappers
  import opened Quantities
  import opened Recipes

  /** `self.scale * rpm_factor` with `rpm_factor = want / have`. */
  function Adjusted(scale: real, want: real, have: real): real
    requires have != 0.0
  {
    scale * (want / have)
  }

  /** `products` lists the demanded resource with a nonzero quantity. */
  predicate Matched(products: seq<Amount>, d: Amount)
  {
    var k := Find(products, d.resource.id);
    k >= 0 && products[k].quantity != 0.0
  }

  /** `products` lists the demanded resource with quantity zero: the division fails. */
  predicate ZeroMatch(products: seq<Amount>, d: Amount)
  {
    var k := Find(products, d.resource.id);
    k >= 0 && products[k].quantity == 0.0
  }

  /** The scale at which the listed product would cover the demand `d`. */
  function AdjustedFor(scale: real, products: seq<Amount>, d: Amount): real
    requires Matched(products, d)
  {
    Adjusted(scale, d.quantity, products[Find(products, d.resource.id)].quantity)
  }

  /**
   * The loop of `scale_for_min_rpm` over `demands` in order, starting from
   * `scale`: the largest of `scale` and the adjusted scales of the demanded
   * products that `products` lists; None once a listed quantity is zero,
   * where the source raises ZeroDivisionError.
   */
  function BestScale(scale: real, products: seq<Amount>, demands: seq<Amount>): Option<real>
  {
    if demands == [] then Some(scale)
    else
      var d := demands[|demands| - 1];
      match BestScale(scale, products, demands[..|demands| - 1])
      case None => None
      case Some(best) =>
        if ZeroMatch(products, d) then None
        else if !Matched(products, d) then Some(best)
        else
          var adj := AdjustedFor(scale, products, d);
          Some(if adj > best then adj else best)
  }

  /**
   * The loop's result is a maximum: no lower than `scale` or any demanded
   * product's adjusted scale, and equal to `scale` or to one of them.
   */
  lemma {:induction false} BestScaleIsMax(scale: real, products: seq<Amount>, demands: seq<Amount>)
    requires BestScale(scale, products, demands).Some?
    ensures var v := BestScale(scale, products, demands).value;
      v >= scale &&
      (forall i | 0 <= i < |demands| && Matched(products, demands[i]) ::
         AdjustedFor(scale, products, demands[i]) <= v) &&
      (v == scale || exists i | 0 <= i < |demands| && Matched(products, demands[i]) ::
         v == AdjustedFor(scale, products, demands[i]))
  {
    if demands != [] {
      var n := |demands| - 1;
      var pre := demands[..n];
      BestScaleIsMax(scale, products, pre);
      var v := BestScale(scale, products, demands).value;
      var best := BestScale(scale, products, pre).value;
      forall i | 0 <= i < |demands| && Matched(products, demands[i])
        ensures AdjustedFor(scale, products, demands[i]) <= v
      {
        if i < n {
          assert demands[i] == pre[i];
        }
      }
      if v != scale && v != best {
        assert v == AdjustedFor(scale, products, demands[n]);
      } else if v != scale {
        var j :| 0 <= j < |pre| && Matched(products, pre[j]) && best == AdjustedFor(scale, products, pre[j]);
        assert demands[j] == pre[j];
      }
    }
  }

  /** The loop fails exactly when some demanded product is listed with quantity zero. */
  lemma {:induction false} BestScaleFails(scale: real, products: seq<Amount>, demands: seq<Amount>)
    ensures BestScale(scale, products, demands).None? <==>
      exists i | 0 <= i < |demands| :: ZeroMatch(products, demands[i])
  {
    if demands != [] {
      var n := |demands| - 1;
      var pre := demands[..n];
      BestScaleFails(scale, products, pre);
      if BestScale(scale, products, pre).None? {
        var j :| 0 <= j < |pre| && ZeroMatch(products, pre[j]);
        assert demands[j] == pre[j];
      } else if !ZeroMatch(products, demands[n]) {
        forall i | 0 <= i < |demands| ensures !ZeroMatch(products, demands[i]) {
          if i < n {
            assert demands[i] == pre[i];
          }
        }
      }
    }
  }

  /** Once the loop has failed on a prefix of the demands, it fails on all of them. */
  lemma {:induction false} BestScaleFailsLater(scale: real, products: seq<Amount>, demands: seq<Amount>, n: nat)
    requires n <= |demands| && BestScale(scale, products, demands[..n]).None?
    ensures BestScale(scale, products, demands).None?
    decreases |demands| - n
  {
    if n < |demands| {
      PrefixSnoc(demands, n);
      BestScaleFailsLater(scale, products, demands, n + 1);
    } else {
      assert demands[..n] == demands;
    }
  }

  /** One more demand: the loop body of `scale_for_min_rpm`. */
  lemma BestScaleStep(scale: real, products: seq<Amount>, demands: seq<Amount>, i: nat)
    requires i < |demands| && BestScale(scale, products, demands[..i]).Some?
    ensures var best := BestScale(scale, products, demands[..i]).value;
      var d := demands[i];
      BestScale(scale, products, demands[..i + 1]) ==
        if ZeroMatch(products, d) then None
        else if !Matched(products, d) then Some(best)
        else if AdjustedFor(scale, products, d) > best then Some(AdjustedFor(scale, products, d))
        else Some(best)
  {
    PrefixSnoc(demands, i);
  }

  /**
   * What `scale_for_min_rpm` leaves as the scale of recipe `r`: the loop's
   * result over the products of `scaled(scale)` when it exceeds the current
   * scale by more than 0.09, the current scale otherwise; the error it
   * raises when `scaled` or the loop divides by zero.
   */
  function MinRpmScale(r: Recipe, scale: real, demands: seq<Amount>): Result<real, string>
  {
    if r.cycleTime == 0.0 then Failure("ZeroDivisionError")
    else
      match BestScale(scale, Scaled(r, scale).products, demands)
      case None => Failure("ZeroDivisionError")
      case Some(v) => Success(if v - scale > 0.09 then v else scale)
  }

  /**
   * `scale_for_min_rpm` never lowers the scale, and raises it only by more
   * than 0.09, to the largest adjusted scale of a demanded product.
   */
  lemma MinRpmScaleRaises(r: Recipe, scale: real, demands: seq<Amount>)
    requires MinRpmScale(r, scale, demands).Success?
    ensures var v := MinRpmScale(r, scale, demands).value;
      var products := Scaled(r, scale).products;
      v >= scale &&
      (v != scale ==>
        v - scale > 0.09 &&
        (forall i | 0 <= i < |demands| && Matched(products, demands[i]) ::
           AdjustedFor(scale, products, demands[i]) <= v) &&
        (exists i | 0 <= i < |demands| && Matched(products, demands[i]) ::
           v == AdjustedFor(scale, products, demands[i])))
  {
    BestScaleIsMax(scale, Scaled(r, scale).products, demands);
  }

  /**
   * For a recipe with distinct ids, the adjusted scale of a matched demand
   * is `scale_factor_for_product` of the demanded resource and quantity,
   * whatever the current (nonzero) scale.
   */
  lemma AdjustedIsScaleFactor(r: Recipe, scale: real, d: Amount)
    requires r.cycleTime != 0.0 && Consistent(r) && scale != 0.0
    requires Matched(Scaled(r, scale).products, d)
    ensures HasId(r.products, d.resource.id) && NonZeroProduct(r, d.resource.id)
    ensures AdjustedFor(scale, Scaled(r, scale).products, d) ==
      ScaleFactorForProduct(r, d.resource, d.quantity).value
  {
    var c := r.cycleTime;
    ScaledRates(r, scale);
    FindScaleAll(r.products, Rate(c, scale), d.resource.id);
    ScaleAllAt(r.products, Rate(c, scale));
    var k := Find(r.products, d.resource.id);
    ScaledQuantityZero(c, r.products[k], scale);
    ProductionParts(r, d.resource);
    AdjustedScaleFree(c, r.products[k], scale, d.quantity);
  }

  /** Scaling by a nonzero rate keeps a quantity zero or nonzero. */
  lemma ScaledQuantityZero(c: real, a: Amount, scale: real)
    requires c != 0.0 && scale != 0.0
    ensures Scale(a, Rate(c, scale)).quantity == 0.0 <==> a.quantity == 0.0
  {
    RateNonZero(c, scale);
  }

  /** `scale * (want / (q * Rate(c, scale)))` does not depend on `scale`. */
  lemma AdjustedScaleFree(c: real, a: Amount, scale: real, want: real)
    requires c != 0.0 && scale != 0.0 && a.quantity != 0.0
    ensures Rate(c, a.quantity) != 0.0 && Scale(a, Rate(c, scale)).quantity != 0.0
    ensures Adjusted(scale, want, Scale(a, Rate(c, scale)).quantity) == want / Rate(c, a.quantity)
  {
    RateNonZero(c, a.quantity);
    RateNonZero(c, scale);
    var q := a.quantity;
    assert Scale(a, Rate(c, scale)).quantity == q * ((60.0 / c) * scale);
    assert q * ((60.0 / c) * scale) == scale * ((60.0 / c) * q);
  }

  /**
   * Two runs of the loop see the same candidates: the same demands match,
   * the same fail, and each match yields the same adjusted scale.
   */
  ghost predicate SameCandidates(x: real, p: seq<Amount>, y: real, q: seq<Amount>, demands: seq<Amount>)
  {
    forall i | 0 <= i < |demands| ::
      (ZeroMatch(p, demands[i]) <==> ZeroMatch(q, demands[i])) &&
      (Matched(p, demands[i]) <==> Matched(q, demands[i])) &&
      (Matched(p, demands[i]) ==> AdjustedFor(x, p, demands[i]) == AdjustedFor(y, q, demands[i]))
  }

  /**
   * Restarting the loop from any scale at least its result, with the same
   * candidates, leaves that scale unchanged.
   */
  lemma {:induction false} BestScaleRestart(x: real, p: seq<Amount>, y: real, q: seq<Amount>, demands: seq<Amount>)
    requires SameCandidates(x, p, y, q, demands)
    requires BestScale(x, p, demands).Some? && y >= BestScale(x, p, demands).value
    ensures BestScale(y, q, demands) == Some(y)
  {
    if demands != [] {
      var n := |demands| - 1;
      var pre := demands[..n];
      assert SameCandidates(x, p, y, q, pre) by {
        forall i | 0 <= i < |pre| ensures pre[i] == demands[i] { }
      }
      BestScaleRestart(x, p, y, q, pre);
    }
  }

  /** At any two nonzero scales, the loop over `scaled` sees the same candidates. */
  lemma ScaledCandidates(r: Recipe, x: real, y: real, demands: seq<Amount>)
    requires r.cycleTime != 0.0 && Consistent(r) && x != 0.0 && y != 0.0
    ensures SameCandidates(x, Scaled(r, x).products, y, Scaled(r, y).products, demands)
  {
    var c := r.cycleTime;
    ScaledRates(r, x);
    ScaledRates(r, y);
    ScaleAllAt(r.products, Rate(c, x));
    ScaleAllAt(r.products, Rate(c, y));
    forall i | 0 <= i < |demands|
      ensures var d := demands[i];
        (ZeroMatch(Scaled(r, x).products, d) <==> ZeroMatch(Scaled(r, y).products, d)) &&
        (Matched(Scaled(r, x).products, d) <==> Matched(Scaled(r, y).products, d)) &&
        (Matched(Scaled(r, x).products, d) ==>
           AdjustedFor(x, Scaled(r, x).products, d) == AdjustedFor(y, Scaled(r, y).products, d))
    {
      var id := demands[i].resource.id;
      FindScaleAll(r.products, Rate(c, x), id);
      FindScaleAll(r.products, Rate(c, y), id);
      var k := Find(r.products, id);
      if k >= 0 {
        ScaledQuantityZero(c, r.products[k], x);
        ScaledQuantityZero(c, r.products[k], y);
        if r.products[k].quantity != 0.0 {
          AdjustedScaleFree(c, r.products[k], x, demands[i].quantity);
          AdjustedScaleFree(c, r.products[k], y, demands[i].quantity);
        }
      }
    }
  }

  /**
   * For a recipe with distinct ids and a positive scale, a second
   * `scale_for_min_rpm` with the same demands changes nothing.
   */
  lemma MinRpmScaleIdempotent(r: Recipe, scale: real, demands: seq<Amount>)
    requires Consistent(r) && scale > 0.0 && MinRpmScale(r, scale, demands).Success?
    ensures var v := MinRpmScale(r, scale, demands).value;
      MinRpmScale(r, v, demands) == Success(v)
  {
    var v := MinRpmScale(r, scale, demands).value;
    var products := Scaled(r, scale).products;
    BestScaleIsMax(scale, products, demands);
    if v != scale {
      ScaledCandidates(r, scale, v, demands);
      BestScaleRestart(scale, products, v, Scaled(r, v).products, demands);
    }
  }

  /** Python's `int(x)` on a float: truncation toward zero. */
  function Trunc(x: real): (n: int)
    ensures x >= 0.0 ==> n as real <= x < n as real + 1.0
    ensures x < 0.0 ==> n as real - 1.0 < x <= n as real
  {
    if x >= 0.0 then x.Floor else -((-x).Floor)
  }

  /** `math.ceil`: the least integer not below `x`. */
  function Ceil(x: real): (n: int)
    ensures n as real - 1.0 < x <= n as real
  {
    -((-x).Floor)
  }

  /** What `ceil_scale` leaves as the scale. */
  function CeiledScale(x: real): real
  {
    if x - Trunc(x) as real > 0.09 then Ceil(x) as real else x
  }

  /**
   * `ceil_scale` rounds a positive scale whose fraction exceeds 0.09 up to
   * the next whole number, and leaves every other scale, negative ones
   * included, as it is.
   */
  lemma CeiledScaleMeaning(x: real)
    ensures CeiledScale(x) >= x && CeiledScale(x) < x + 1.0
    ensures CeiledScale(x) != x <==> x > 0.0 && x - x.Floor as real > 0.09
    ensures CeiledScale(x) != x ==> CeiledScale(x) == (x.Floor + 1) as real
  {
    var f := x.Floor;
    assert f as real <= x < f as real + 1.0;
    if x >= 0.0 {
      assert Trunc(x) == f;
      if x - f as real > 0.09 {
        var n := Ceil(x);
        assert f < n <= f + 1;
      }
    } else {
      assert Trunc(x) as real >= x;
    }
  }

  /** Rounding twice is rounding once. */
  lemma CeiledScaleIdempotent(x: real)
    ensures CeiledScale(CeiledScale(x)) == CeiledScale(x)
  {
    if CeiledScale(x) != x {
      var n := Ceil(x);
      assert Trunc(n as real) == n;
    }
  }

  /**
   * The loop of `scale_for_min_rpm`: `products[p_id].quantity` is read only
   * for ids `products` holds, and a zero quantity stops the loop.
   */
  method BestScaleLoop(scale: real, products: seq<Amount>, demands: seq<Amount>) returns (best: Option<real>)
    ensures best == BestScale(scale, products, demands)
  {
    var newScale := scale;
    var i := 0;
    while i < |demands|
      invariant 0 <= i <= |demands|
      invariant BestScale(scale, products, demands[..i]) == Some(newScale)
    {
      var d := demands[i];
      var k := Find(products, d.resource.id);
      BestScaleStep(scale, products, demands, i);
      if k >= 0 {
        if products[k].quantity == 0.0 {
          BestScaleFailsLater(scale, products, demands, i + 1);
          return None;
        }
        var adj := Adjusted(scale, d.quantity, products[k].quantity);
        if adj > newScale {
          newScale := adj;
        }
      }
      i := i + 1;
    }
    assert demands[..i] == demands;
    return Some(newScale);
  }

  /** `ScaledRecipe`: a recipe and the scale at which it runs. */
  class ScaledRecipe {
    const recipe: Recipe
    var scale: real

    constructor (recipe: Recipe, scale: real)
      ensures this.recipe == recipe && this.scale == scale
    {
      this.recipe := recipe;
      this.scale := scale;
    }

    /**
     * `scale_for_min_rpm(product_quantities)`: raises the scale so that each
     * demanded product is made at its demanded rate, as `MinRpmScale`
     * describes; on ZeroDivisionError the scale is left as it was.
     */
    method ScaleForMinRpm(demands: ResourceQuantities) returns (o: Outcome<string>)
      modifies this
      ensures var m := MinRpmScale(recipe, old(scale), demands.Items());
        (m.Success? ==> o == Pass && scale == m.value) &&
        (m.Failure? ==> o == Fail(m.error) && scale == old(scale))
    {
      if recipe.cycleTime == 0.0 {
        return Fail("ZeroDivisionError");
      }
      var current := scale;
      var best := BestScaleLoop(current, Scaled(recipe, current).products, demands.Items());
      if best.None? {
        return Fail("ZeroDivisionError");
      }
      if best.value - current > 0.09 {
        scale := best.value;
      }
      return Pass;
    }

    /** `ceil_scale`. */
    method CeilScale()
      modifies this
      ensures scale == CeiledScale(old(scale))
    {
      if scale - Trunc(scale) as real > 0.09 {
        scale := Ceil(scale) as real;
      }
    }
  }
}
