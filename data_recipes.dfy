/**
 * Recipes and what they produce per minute (data.py:134-302): `TargetedProduction`,
 * `Recipe` with `production`, `scaled`, `nth_product`,
 * `scale_factor_for_product` and `is_equal`, and the dictionaries `as_dict`
 * writes for resources and recipes.
 */
module Recipes {
  import opened Wrappers
  import opened Quantities

  /** `ProductionResources`: what a production consumes and what else it yields. */
  datatype ProductionResources = ProductionResources(resources: seq<Amount>, byproducts: seq<Amount>)

  /**
   * `TargetedProduction`: the inputs and byproducts per unit of `product`,
   * and `baseRpm`, the units of `product` one station makes per minute.
   */
  datatype TargetedProduction = TargetedProduction(
    product: Resource, resources: seq<Amount>, byproducts: seq<Amount>, baseRpm: real)

  /** The inputs `for_rpm(rpm)` lists: every input quantity multiplied by `rpm`. */
  function InputsAt(t: TargetedProduction, rpm: real): seq<Amount>
  {
    ScaleAll(t.resources, rpm)
  }

  /** `for_rpm`: every input and byproduct quantity multiplied by `rpm`. */
  function ForRpm(t: TargetedProduction, rpm: real): (r: ProductionResources)
    ensures IdSeq(r.resources) == IdSeq(t.resources) && IdSeq(r.byproducts) == IdSeq(t.byproducts)
  {
    ScaleAllKeepsIds(t.resources, rpm);
    ScaleAllKeepsIds(t.byproducts, rpm);
    ProductionResources(InputsAt(t, rpm), ScaleAll(t.byproducts, rpm))
  }

  /** Linearity: the lists for `rpm * f` are those for `rpm`, scaled by `f`. */
  lemma ForRpmLinear(t: TargetedProduction, rpm: real, f: real)
    ensures ForRpm(t, rpm * f).resources == ScaleAll(ForRpm(t, rpm).resources, f)
    ensures ForRpm(t, rpm * f).byproducts == ScaleAll(ForRpm(t, rpm).byproducts, f)
  {
    ScaleAllCompose(t.resources, rpm, f);
    ScaleAllCompose(t.byproducts, rpm, f);
  }

  /**
   * A recipe: one cycle of `cycleTime` seconds consumes `resources` and yields
   * `products`. Both lists are the values of a `ResourceQuantities`, so in a
   * recipe built by `MakeRecipe` their ids are distinct (see `Consistent`).
   */
  datatype Recipe = Recipe(
    name: string, id: string, resources: seq<Amount>, products: seq<Amount>,
    cycleTime: real, sourceName: Option<string>)

  /** Every recipe the constructor builds has one entry per id in each list. */
  ghost predicate Consistent(r: Recipe)
  {
    DistinctIds(r.resources) && DistinctIds(r.products)
  }

  /**
   * `production` divides by the quantity of the product asked for: it must
   * not be zero when the recipe lists that product.
   */
  predicate NonZeroProduct(r: Recipe, id: string)
  {
    var k := Find(r.products, id);
    k < 0 || r.products[k].quantity != 0.0
  }

  /**
   * `Recipe(name, id, resources, products, cycle_time)`: each list goes through
   * the `ResourceQuantities` constructor, so repeated ids are merged by summing;
   * `source_name` starts as None.
   */
  function MakeRecipe(name: string, id: string, resources: seq<Amount>, products: seq<Amount>,
                      cycleTime: real): (r: Recipe)
    ensures Consistent(r)
    ensures r.name == name && r.id == id && r.cycleTime == cycleTime && r.sourceName == None
    ensures forall k :: HasId(r.resources, k) <==> HasId(resources, k)
    ensures forall k :: HasId(r.products, k) <==> HasId(products, k)
    ensures forall k | HasId(resources, k) ::
      Lookup(r.resources, k).Some? && Lookup(r.resources, k).value.quantity == SumQty(resources, k)
    ensures forall k | HasId(products, k) ::
      Lookup(r.products, k).Some? && Lookup(r.products, k).value.quantity == SumQty(products, k)
    ensures IdSeq(r.resources) == FirstOccurrences(IdSeq(resources))
    ensures IdSeq(r.products) == FirstOccurrences(IdSeq(products))
  {
    MergeFacts(resources);
    MergeFacts(products);
    MergeOrder(resources);
    MergeOrder(products);
    Recipe(name, id, Merge(resources), Merge(products), cycleTime, None)
  }

  lemma MergeFacts(s: seq<Amount>)
    ensures DistinctIds(Merge(s))
    ensures forall k :: HasId(Merge(s), k) <==> HasId(s, k)
    ensures forall k | HasId(s, k) :: Lookup(Merge(s), k).Some? && Lookup(Merge(s), k).value.quantity == SumQty(s, k)
  {
    MergeDistinct(s);
    forall k | HasId(s, k)
      ensures Lookup(Merge(s), k).Some? && Lookup(Merge(s), k).value.quantity == SumQty(s, k)
    {
      MergeSums(s, k);
    }
  }

  /** The entries of `s` whose id is not `id`, in order. */
  function Without(s: seq<Amount>, id: string): (r: seq<Amount>)
    ensures forall a {:trigger a in r} :: a in r ==> a in s && a.resource.id != id
    ensures forall a {:trigger a in s} :: a in s && a.resource.id != id ==> a in r
    ensures |r| <= |s|
  {
    if s == [] then []
    else
      assert forall a {:trigger a in s} | a in s :: a == s[0] || a in s[1..];
      if s[0].resource.id == id then Without(s[1..], id)
      else [s[0]] + Without(s[1..], id)
  }

  /**
   * The rate of `q` units every `c` seconds, in units per minute:
   * `(60 / cycle_time) * q` as `production` and `scaled` compute it.
   */
  function Rate(c: real, q: real): real
    requires c != 0.0
  {
    (60.0 / c) * q
  }

  lemma RateNonZero(c: real, q: real)
    requires c != 0.0 && q != 0.0
    ensures Rate(c, q) != 0.0
  {
  }

  /**
   * `production(p)` as it is written (data.py:196-204): None when `p` is not a
   * product; otherwise the inputs per unit of `p` (divided by p's quantity
   * `q`), the rate `Rate(cycle_time, q)`, and the other products multiplied
   * by `q`.
   */
  function ProductionAsWritten(r: Recipe, p: Resource): (t: Option<TargetedProduction>)
    requires r.cycleTime != 0.0 && NonZeroProduct(r, p.id)
    ensures t.None? <==> !HasId(r.products, p.id)
  {
    var k := Find(r.products, p.id);
    if k < 0 then None
    else
      var q := r.products[k].quantity;
      Some(TargetedProduction(p, ScaleAll(r.resources, 1.0 / q), ScaleAll(Without(r.products, p.id), q),
                              Rate(r.cycleTime, q)))
  }

  /**
   * `production(p)` as intended: like `ProductionAsWritten`, but the other
   * products are per unit of `p` too, divided by `q` as the inputs are.
   */
  function Production(r: Recipe, p: Resource): (t: Option<TargetedProduction>)
    requires r.cycleTime != 0.0 && NonZeroProduct(r, p.id)
    ensures t.None? <==> !HasId(r.products, p.id)
    ensures t.Some? ==> t.value.product == p && t.value.baseRpm != 0.0
  {
    var k := Find(r.products, p.id);
    if k < 0 then None
    else
      var q := r.products[k].quantity;
      RateNonZero(r.cycleTime, q);
      Some(TargetedProduction(p, ScaleAll(r.resources, 1.0 / q), ScaleAll(Without(r.products, p.id), 1.0 / q),
                              Rate(r.cycleTime, q)))
  }

  /**
   * Entry by entry, the production of a listed product `p` of quantity `q`:
   * each input of the recipe per unit of `p`, in order; each other product as
   * a byproduct per unit of `p`, in order; `q` units every cycle.
   */
  lemma ProductionParts(r: Recipe, p: Resource)
    requires r.cycleTime != 0.0 && NonZeroProduct(r, p.id) && HasId(r.products, p.id)
    ensures var q := Lookup(r.products, p.id).value.quantity;
      var t := Production(r, p).value;
      var others := Without(r.products, p.id);
      q != 0.0 && t.product == p && t.baseRpm == Rate(r.cycleTime, q) &&
      |t.resources| == |r.resources| &&
      (forall i | 0 <= i < |r.resources| :: t.resources[i] == Scale(r.resources[i], 1.0 / q)) &&
      |t.byproducts| == |others| &&
      (forall i | 0 <= i < |others| :: t.byproducts[i] == Scale(others[i], 1.0 / q))
  {
    var q := r.products[Find(r.products, p.id)].quantity;
    ScaleAllAt(r.resources, 1.0 / q);
    ScaleAllAt(Without(r.products, p.id), 1.0 / q);
  }

  /**
   * The intended production lists, per unit of `p`, the recipe's inputs and
   * its other products, in order: multiplied back by p's quantity `q` they
   * are the recipe's own lists.
   */
  lemma ProductionPerUnit(r: Recipe, p: Resource)
    requires r.cycleTime != 0.0 && NonZeroProduct(r, p.id) && HasId(r.products, p.id)
    ensures var t := Production(r, p).value;
      var q := Lookup(r.products, p.id).value.quantity;
      ScaleAll(t.resources, q) == r.resources &&
      ScaleAll(t.byproducts, q) == Without(r.products, p.id)
  {
    var q := r.products[Find(r.products, p.id)].quantity;
    ProductionParts(r, p);
    PerUnit(r.resources, q);
    PerUnit(Without(r.products, p.id), q);
  }

  /** Dividing every quantity by `q` and multiplying back by `q` changes nothing. */
  lemma PerUnit(s: seq<Amount>, q: real)
    requires q != 0.0
    ensures ScaleAll(ScaleAll(s, 1.0 / q), q) == s
  {
    var u := 1.0 / q;
    ScaleAllAt(s, u);
    ScaleAllAt(ScaleAll(s, u), q);
    forall i | 0 <= i < |s| ensures ScaleAll(ScaleAll(s, u), q)[i] == s[i] {
      DivMul(s[i].quantity, q);
    }
  }

  lemma DivMul(x: real, q: real)
    requires q != 0.0
    ensures x * (1.0 / q) * q == x
  {
  }

  /** `RecipeComponents`: per-minute inputs and products at some scale. */
  datatype RecipeComponents = RecipeComponents(resources: seq<Amount>, products: seq<Amount>)

  /**
   * `scaled(f)`: every input and product multiplied by `Rate(cycle_time, f)`,
   * each list rebuilt as a `ResourceQuantities`.
   */
  function Scaled(r: Recipe, f: real): (c: RecipeComponents)
    requires r.cycleTime != 0.0
  {
    var fac := Rate(r.cycleTime, f);
    RecipeComponents(Merge(ScaleAll(r.resources, fac)), Merge(ScaleAll(r.products, fac)))
  }

  /**
   * On a consistent recipe, `scaled(f)` keeps every list's ids and order and
   * multiplies each quantity by `Rate(cycle_time, f)`.
   */
  lemma ScaledRates(r: Recipe, f: real)
    requires r.cycleTime != 0.0 && Consistent(r)
    ensures Scaled(r, f).resources == ScaleAll(r.resources, Rate(r.cycleTime, f))
    ensures Scaled(r, f).products == ScaleAll(r.products, Rate(r.cycleTime, f))
  {
    var fac := Rate(r.cycleTime, f);
    ScaleAllKeepsIds(r.resources, fac);
    ScaleAllKeepsIds(r.products, fac);
    MergeOfDistinct(ScaleAll(r.resources, fac));
    MergeOfDistinct(ScaleAll(r.products, fac));
  }

  lemma ScaleAllKeepsIds(s: seq<Amount>, f: real)
    ensures IdSeq(ScaleAll(s, f)) == IdSeq(s)
    ensures DistinctIds(s) ==> DistinctIds(ScaleAll(s, f))
  {
    assert forall i | 0 <= i < |s| :: ScaleAll(s, f)[i].resource == s[i].resource;
  }

  /**
   * At one station's rate, the intended production consumes and yields
   * exactly what `scaled(1.0)` lists per minute: its inputs, and the
   * products other than `p`.
   */
  lemma ProductionAtBaseRpm(r: Recipe, p: Resource)
    requires r.cycleTime != 0.0 && NonZeroProduct(r, p.id) && Consistent(r)
    requires HasId(r.products, p.id)
    ensures var t := Production(r, p).value;
      ForRpm(t, t.baseRpm).resources == Scaled(r, 1.0).resources &&
      ForRpm(t, t.baseRpm).byproducts == Without(Scaled(r, 1.0).products, p.id)
  {
    ProductionParts(r, p);
    var q := r.products[Find(r.products, p.id)].quantity;
    PerUnitAtBaseRpm(r.resources, r.cycleTime, q);
    PerUnitAtBaseRpm(Without(r.products, p.id), r.cycleTime, q);
    ScaledRates(r, 1.0);
    WithoutScaleAll(r.products, p.id, Rate(r.cycleTime, 1.0));
  }

  /** Per unit of the product, at the base rate: the lists of one station per minute. */
  lemma PerUnitAtBaseRpm(s: seq<Amount>, c: real, q: real)
    requires c != 0.0 && q != 0.0
    ensures ScaleAll(ScaleAll(s, 1.0 / q), Rate(c, q)) == ScaleAll(s, Rate(c, 1.0))
  {
    PerUnitRate(c, q);
    ScaleAllComposeTo(s, 1.0 / q, Rate(c, q), Rate(c, 1.0));
  }

  lemma PerUnitRate(c: real, q: real)
    requires c != 0.0 && q != 0.0
    ensures 1.0 / q * Rate(c, q) == Rate(c, 1.0)
  {
  }

  lemma {:induction false} WithoutScaleAll(s: seq<Amount>, id: string, f: real)
    ensures Without(ScaleAll(s, f), id) == ScaleAll(Without(s, id), f)
  {
    if s != [] {
      WithoutScaleAll(s[1..], id, f);
      assert ScaleAll(s, f)[1..] == ScaleAll(s[1..], f);
    }
  }

  /**
   * What the multiplication by `q` in `ProductionAsWritten` does: a recipe of
   * one minute making 2 of `a` and 1 of `b` yields 1 `b` per minute at its
   * base rate of 2 `a`, but the written production reports 4.
   */
  lemma ProductionAsWrittenOverstatesByproducts()
    ensures var a := Resource("A", "a", false);
      var b := Resource("B", "b", false);
      var r := Recipe("R", "r", [], [Amount(a, 2.0), Amount(b, 1.0)], 60.0, None);
      var t := ProductionAsWritten(r, a).value;
      t.baseRpm == 2.0 &&
      ForRpm(t, t.baseRpm).byproducts == [Amount(b, 4.0)] &&
      Without(Scaled(r, 1.0).products, a.id) == [Amount(b, 1.0)]
  {
    var a := Resource("A", "a", false);
    var b := Resource("B", "b", false);
    var r := Recipe("R", "r", [], [Amount(a, 2.0), Amount(b, 1.0)], 60.0, None);
    assert Find(r.products, a.id) == 0;
    assert Without(r.products, a.id) == [Amount(b, 1.0)];
    assert Consistent(r);
    ScaledRates(r, 1.0);
    assert Rate(60.0, 1.0) == 1.0;
    assert ScaleAll(r.products, 1.0) == [Amount(a, 2.0), Amount(b, 1.0)];
    assert Without([Amount(a, 2.0), Amount(b, 1.0)], a.id) == [Amount(b, 1.0)];
  }

  /**
   * `nth_product(n)`: the resource of the n-th product in insertion order,
   * or None when there is no n-th product.
   */
  method NthProduct(r: Recipe, n: int) returns (res: Option<Resource>)
    ensures 0 <= n < |r.products| ==> res == Some(r.products[n].resource)
    ensures !(0 <= n < |r.products|) ==> res == None
  {
    var i := 0;
    while i < |r.products|
      invariant 0 <= i <= |r.products|
      invariant n < 0 || i <= n
    {
      if i == n {
        return Some(r.products[i].resource);
      }
      i := i + 1;
    }
    return None;
  }

  /**
   * `scale_factor_for_product(p, target)`: the scale at which the recipe makes
   * `target` units of `p` per minute; None where the source fails, because
   * `p` is not a product and `production` returned None.
   */
  function ScaleFactorForProduct(r: Recipe, p: Resource, target: real): (f: Option<real>)
    requires r.cycleTime != 0.0 && NonZeroProduct(r, p.id)
    ensures f.None? <==> !HasId(r.products, p.id)
  {
    match Production(r, p)
    case None => None
    case Some(t) => Some(target / t.baseRpm)
  }

  /** Scaled by that factor, the recipe makes exactly `target` units of `p` per minute. */
  lemma ScaleFactorMeetsTarget(r: Recipe, p: Resource, target: real)
    requires r.cycleTime != 0.0 && NonZeroProduct(r, p.id) && Consistent(r)
    requires HasId(r.products, p.id)
    ensures var f := ScaleFactorForProduct(r, p, target).value;
      Lookup(Scaled(r, f).products, p.id).Some? &&
      Lookup(Scaled(r, f).products, p.id).value.quantity == target
  {
    ProductionParts(r, p);
    var k := Find(r.products, p.id);
    var q := r.products[k].quantity;
    RateNonZero(r.cycleTime, q);
    var f := target / Rate(r.cycleTime, q);
    ScaledRates(r, f);
    FindScaleAll(r.products, Rate(r.cycleTime, f), p.id);
    ScaleAllAt(r.products, Rate(r.cycleTime, f));
    RateOfScale(r.cycleTime, r.products[k], target);
  }

  lemma RateOfScale(c: real, a: Amount, target: real)
    requires c != 0.0 && a.quantity != 0.0 && Rate(c, a.quantity) != 0.0
    ensures Scale(a, Rate(c, target / Rate(c, a.quantity))).quantity == target
  {
  }

  /**
   * `is_equal`: the same source name, name and id, and `is_equal` resources;
   * products and cycle time are not compared.
   */
  predicate RecipeIsEqual(a: Recipe, b: Recipe)
  {
    a.sourceName == b.sourceName && a.name == b.name && a.id == b.id &&
    SameQuantities(a.resources, b.resources)
  }

  /** For consistent recipes: the names agree and the inputs hold the same quantity per id. */
  lemma RecipeIsEqualMeaning(a: Recipe, b: Recipe)
    requires Consistent(a) && Consistent(b)
    ensures RecipeIsEqual(a, b) <==>
      a.sourceName == b.sourceName && a.name == b.name && a.id == b.id &&
      (forall k :: HasId(a.resources, k) <==> HasId(b.resources, k)) &&
      (forall k | HasId(a.resources, k) :: Lookup(a.resources, k) == Lookup(b.resources, k))
  {
    SameQuantitiesMeaning(a.resources, b.resources);
  }

  /** Two recipes that differ only in products and cycle time are `is_equal`. */
  lemma RecipeIsEqualIgnoresProducts(a: Recipe, products: seq<Amount>, cycleTime: real)
    requires Consistent(a)
    ensures RecipeIsEqual(a, a.(products := products, cycleTime := cycleTime))
  {
    SameQuantitiesMeaning(a.resources, a.resources);
  }

  /** `ResourceQuantity.as_dict`. */
  datatype QuantityDict = QuantityDict(id: string, quantity: real)

  /** `Resource.as_dict`. */
  datatype ResourceDict = ResourceDict(name: string, id: string, raw: bool)

  /** `Recipe.as_dict`: `source_name` is present only when set. */
  datatype RecipeDict = RecipeDict(
    name: string, id: string, cycleSecs: real,
    products: seq<QuantityDict>, resources: seq<QuantityDict>, sourceName: Option<string>)

  function ResourceAsDict(r: Resource): ResourceDict
  {
    ResourceDict(r.name, r.id, r.isRaw)
  }

  function QuantitiesAsDicts(s: seq<Amount>): (r: seq<QuantityDict>)
    ensures |r| == |s| && forall i | 0 <= i < |s| :: r[i] == QuantityDict(s[i].resource.id, s[i].quantity)
  {
    if s == [] then [] else [QuantityDict(s[0].resource.id, s[0].quantity)] + QuantitiesAsDicts(s[1..])
  }

  function RecipeAsDict(r: Recipe): RecipeDict
  {
    RecipeDict(r.name, r.id, r.cycleTime, QuantitiesAsDicts(r.products), QuantitiesAsDicts(r.resources), r.sourceName)
  }
}
