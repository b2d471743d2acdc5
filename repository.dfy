/**
 * The recipe catalog (repository.py): `RecipeRepository`, two insertion-ordered
 * dicts from id to resource and to recipe with duplicate-key rejection and
 * lookups, the loaders that read back what `as_dict` writes, and the fluent
 * `RecipeBuilder`.
 */
module Repository {
  import opened Wrappers
  import opened Quantities
  import opened Recipes

  /** The id a resource is stored under. */
  function ResourceId(r: Resource): string
  {
    r.id
  }

  /** The id a recipe is stored under. */
  function RecipeId(r: Recipe): string
  {
    r.id
  }

  /** The index of the entry stored under `id` in a dict whose keys `key` gives, or -1. */
  function FindKey<T>(s: seq<T>, key: T -> string, id: string): (k: int)
    ensures -1 <= k < |s|
    ensures k >= 0 ==> key(s[k]) == id
    ensures k < 0 ==> forall j | 0 <= j < |s| :: key(s[j]) != id
  {
    if s == [] then -1
    else if key(s[|s| - 1]) == id then |s| - 1
    else FindKey(s[..|s| - 1], key, id)
  }

  /** `dict.get(id, None)` on a dict whose keys `key` gives. */
  function LookupKey<T>(s: seq<T>, key: T -> string, id: string): (r: Option<T>)
    ensures r.Some? ==> r.value in s && key(r.value) == id
    ensures r.None? <==> forall j | 0 <= j < |s| :: key(s[j]) != id
  {
    var k := FindKey(s, key, id);
    if k < 0 then None else Some(s[k])
  }

  /** The keys of a dict: no two entries share one. */
  ghost predicate DistinctKeys<T>(s: seq<T>, key: T -> string)
  {
    forall i, j | 0 <= i < j < |s| :: key(s[i]) != key(s[j])
  }

  lemma DistinctKeysSnoc<T>(s: seq<T>, key: T -> string, x: T)
    requires DistinctKeys(s, key) && forall j | 0 <= j < |s| :: key(s[j]) != key(x)
    ensures DistinctKeys(s + [x], key)
  {
  }

  /**
   * The recipes whose products hold `id`, in catalog order: what
   * `find_recipes_by_product` is meant to return, reading its test as
   * `product.id in recipe.products`.
   */
  function Producing(recipes: seq<Recipe>, id: string): (r: seq<Recipe>)
    ensures |r| <= |recipes|
    ensures forall x {:trigger x in r} :: x in r ==> x in recipes && HasId(x.products, id)
    ensures forall x {:trigger x in recipes} :: x in recipes && HasId(x.products, id) ==> x in r
  {
    if recipes == [] then []
    else
      var last := recipes[|recipes| - 1];
      assert forall x {:trigger x in recipes} | x in recipes :: x == last || x in recipes[..|recipes| - 1];
      Producing(recipes[..|recipes| - 1], id) + (if HasId(last.products, id) then [last] else [])
  }

  /** `Producing` keeps catalog order: filtering a concatenation filters each part. */
  lemma {:induction false} ProducingAppend(a: seq<Recipe>, b: seq<Recipe>, id: string)
    ensures Producing(a + b, id) == Producing(a, id) + Producing(b, id)
    decreases |b|
  {
    if b == [] {
      assert a + b == a;
    } else {
      var n := |b| - 1;
      assert (a + b)[..|a + b| - 1] == a + b[..n];
      ProducingAppend(a, b[..n], id);
    }
  }

  /**
   * `find_recipes_by_product` as written: it calls `.get` on the recipe's
   * `ResourceQuantities`, which has no such method, so the first recipe
   * looked at raises AttributeError; only an empty catalog returns.
   */
  function FindRecipesByProductAsWritten(recipes: seq<Recipe>, product: Resource): (r: Result<seq<Recipe>, string>)
    ensures r.Success? <==> recipes == []
    ensures r.Success? ==> r.value == []
  {
    if recipes == [] then Success([]) else Failure("AttributeError")
  }

  /**
   * A catalog holding one recipe for `p` finds nothing as written, where
   * the intended filter finds that recipe.
   */
  lemma FindRecipesByProductAsWrittenFails()
    ensures var p := Resource("Plate", "plate", false);
      var r := MakeRecipe("Press", "press", [], [Amount(p, 1.0)], 2.0);
      FindRecipesByProductAsWritten([r], p).Failure? && Producing([r], p.id) == [r]
  {
    var p := Resource("Plate", "plate", false);
    var r := MakeRecipe("Press", "press", [], [Amount(p, 1.0)], 2.0);
    assert HasId([Amount(p, 1.0)], p.id);
    assert HasId(r.products, p.id);
    assert [r][..0] == [];
  }

  /** `load_resource` builds `Resource(d['name'], d['id'])`: `raw` is not read. */
  function ResourceFromDict(d: ResourceDict): (r: Resource)
    ensures r.name == d.name && r.id == d.id && !r.isRaw
  {
    Resource(d.name, d.id, false)
  }

  /** A resource written by `as_dict` and read back is no longer raw. */
  lemma ResourceRoundTrip(r: Resource)
    ensures ResourceFromDict(ResourceAsDict(r)) == r.(isRaw := false)
  {
  }

  /**
   * The quantities of a recipe dict with each id resolved in the catalog;
   * None when an id is missing, where `Recipe` then fails on `None.id`.
   */
  function AmountsFromDicts(catalog: seq<Resource>, ds: seq<QuantityDict>): (r: Option<seq<Amount>>)
    ensures r.Some? <==> forall i | 0 <= i < |ds| :: LookupKey(catalog, ResourceId, ds[i].id).Some?
    ensures r.Some? ==> |r.value| == |ds| && forall i | 0 <= i < |ds| ::
      r.value[i] == Amount(LookupKey(catalog, ResourceId, ds[i].id).value, ds[i].quantity)
  {
    if ds == [] then Some([])
    else
      var head := LookupKey(catalog, ResourceId, ds[0].id);
      var tail := AmountsFromDicts(catalog, ds[1..]);
      if head.None? || tail.None? then
        assert head.None? ==> LookupKey(catalog, ResourceId, ds[0].id).None?;
        None
      else Some([Amount(head.value, ds[0].quantity)] + tail.value)
  }

  /**
   * `load_recipe(d)` before the insertion: both lists resolved in the
   * catalog and passed to the `Recipe` constructor; `source_name` is not read.
   */
  function RecipeFromDict(catalog: seq<Resource>, d: RecipeDict): (r: Option<Recipe>)
    ensures r.Some? ==> Consistent(r.value) && r.value.sourceName == None
  {
    var products := AmountsFromDicts(catalog, d.products);
    var resources := AmountsFromDicts(catalog, d.resources);
    if products.None? || resources.None? then None
    else Some(MakeRecipe(d.name, d.id, resources.value, products.value, d.cycleSecs))
  }

  /** Every resource `s` mentions is the one the catalog holds under its id. */
  predicate InCatalog(catalog: seq<Resource>, s: seq<Amount>)
  {
    forall i | 0 <= i < |s| :: LookupKey(catalog, ResourceId, s[i].resource.id) == Some(s[i].resource)
  }

  lemma AmountsRoundTrip(catalog: seq<Resource>, s: seq<Amount>)
    requires InCatalog(catalog, s)
    ensures AmountsFromDicts(catalog, QuantitiesAsDicts(s)) == Some(s)
  {
    var r := AmountsFromDicts(catalog, QuantitiesAsDicts(s));
    assert r.Some?;
    assert r.value == s;
  }

  /**
   * Reading back what `Recipe.as_dict` writes gives the same recipe, except
   * that `source_name` is lost, when every resource it uses is in the
   * catalog under its id.
   */
  lemma RecipeRoundTrip(catalog: seq<Resource>, r: Recipe)
    requires Consistent(r) && InCatalog(catalog, r.resources) && InCatalog(catalog, r.products)
    ensures RecipeFromDict(catalog, RecipeAsDict(r)) == Some(r.(sourceName := None))
  {
    AmountsRoundTrip(catalog, r.resources);
    AmountsRoundTrip(catalog, r.products);
    MergeOfDistinct(r.resources);
    MergeOfDistinct(r.products);
  }

  /** `RecipeRepository`: the catalog, in insertion order, with its modified flags. */
  class RecipeRepository {
    var resources: seq<Resource>
    var recipes: seq<Recipe>
    var modResources: bool
    var modRecipes: bool

    /** Each dict holds one entry per id. */
    ghost predicate Valid()
      reads this
    {
      DistinctKeys(resources, ResourceId) && DistinctKeys(recipes, RecipeId)
    }

    constructor ()
      ensures Valid()
      ensures resources == [] && recipes == [] && !modResources && !modRecipes
    {
      resources := [];
      recipes := [];
      modResources := false;
      modRecipes := false;
    }

    /** `resource(id)`: the stored resource for `id`, or None. */
    function ResourceById(id: string): (r: Option<Resource>)
      reads this
      ensures r.Some? ==> r.value in resources && r.value.id == id
      ensures r.None? <==> forall j | 0 <= j < |resources| :: resources[j].id != id
    {
      LookupKey(resources, ResourceId, id)
    }

    /** `recipe(id)`: the stored recipe for `id`, or None. */
    function RecipeById(id: string): (r: Option<Recipe>)
      reads this
      ensures r.Some? ==> r.value in recipes && r.value.id == id
      ensures r.None? <==> forall j | 0 <= j < |recipes| :: recipes[j].id != id
    {
      LookupKey(recipes, RecipeId, id)
    }

    /**
     * `add_resource`: a new id is appended and `mod_resources` set; a present
     * id raises DuplicateKeyError and changes nothing.
     */
    method AddResource(res: Resource) returns (o: Outcome<string>)
      requires Valid()
      modifies this
      ensures Valid()
      ensures o.Pass? <==> old(ResourceById(res.id)).None?
      ensures o.Pass? ==> resources == old(resources) + [res] && modResources
      ensures o.Fail? ==>
        o.error == "DuplicateKeyError: duplicate resource id: " + res.id &&
        resources == old(resources) && modResources == old(modResources)
      ensures recipes == old(recipes) && modRecipes == old(modRecipes)
    {
      if ResourceById(res.id).None? {
        DistinctKeysSnoc(resources, ResourceId, res);
        resources := resources + [res];
        modResources := true;
        return Pass;
      }
      return Fail("DuplicateKeyError: duplicate resource id: " + res.id);
    }

    /**
     * `add_recipe`: a new id is appended and `mod_recipes` set; a present id
     * raises DuplicateKeyError and changes nothing.
     */
    method AddRecipe(rec: Recipe) returns (o: Outcome<string>)
      requires Valid()
      modifies this
      ensures Valid()
      ensures o.Pass? <==> old(RecipeById(rec.id)).None?
      ensures o.Pass? ==> recipes == old(recipes) + [rec] && modRecipes
      ensures o.Fail? ==>
        o.error == "DuplicateKeyError: duplicate recipe id: " + rec.id &&
        recipes == old(recipes) && modRecipes == old(modRecipes)
      ensures resources == old(resources) && modResources == old(modResources)
    {
      if RecipeById(rec.id).None? {
        DistinctKeysSnoc(recipes, RecipeId, rec);
        recipes := recipes + [rec];
        modRecipes := true;
        return Pass;
      }
      return Fail("DuplicateKeyError: duplicate recipe id: " + rec.id);
    }

    /** `resource_by_name`: the first resource in insertion order with that name. */
    method ResourceByName(name: string) returns (r: Option<Resource>)
      ensures r.Some? ==>
        exists i | 0 <= i < |resources| ::
          resources[i] == r.value && r.value.name == name &&
          forall j | 0 <= j < i :: resources[j].name != name
      ensures r.None? <==> forall j | 0 <= j < |resources| :: resources[j].name != name
    {
      var i := 0;
      while i < |resources|
        invariant 0 <= i <= |resources|
        invariant forall j | 0 <= j < i :: resources[j].name != name
      {
        if resources[i].name == name {
          return Some(resources[i]);
        }
        i := i + 1;
      }
      return None;
    }

    /** `recipe_by_name`: the first recipe in insertion order with that name. */
    method RecipeByName(name: string) returns (r: Option<Recipe>)
      ensures r.Some? ==>
        exists i | 0 <= i < |recipes| ::
          recipes[i] == r.value && r.value.name == name &&
          forall j | 0 <= j < i :: recipes[j].name != name
      ensures r.None? <==> forall j | 0 <= j < |recipes| :: recipes[j].name != name
    {
      var i := 0;
      while i < |recipes|
        invariant 0 <= i <= |recipes|
        invariant forall j | 0 <= j < i :: recipes[j].name != name
      {
        if recipes[i].name == name {
          return Some(recipes[i]);
        }
        i := i + 1;
      }
      return None;
    }

    /**
     * `find_recipes_by_product`, with the product test read as membership:
     * the recipes producing `product`, in catalog order.
     */
    method FindRecipesByProduct(product: Resource) returns (results: seq<Recipe>)
      ensures results == Producing(recipes, product.id)
    {
      results := [];
      var i := 0;
      while i < |recipes|
        invariant 0 <= i <= |recipes|
        invariant results == Producing(recipes[..i], product.id)
      {
        PrefixSnoc(recipes, i);
        if HasId(recipes[i].products, product.id) {
          results := results + [recipes[i]];
        }
        i := i + 1;
      }
      assert recipes[..i] == recipes;
    }

    /** `load_resource(d)`: `add_resource` of the resource `d` describes, never raw. */
    method LoadResource(d: ResourceDict) returns (o: Outcome<string>)
      requires Valid()
      modifies this
      ensures Valid()
      ensures o.Pass? <==> old(ResourceById(d.id)).None?
      ensures o.Pass? ==> resources == old(resources) + [ResourceFromDict(d)] && modResources
      ensures o.Fail? ==> resources == old(resources) && modResources == old(modResources)
      ensures recipes == old(recipes) && modRecipes == old(modRecipes)
    {
      o := AddResource(ResourceFromDict(d));
    }

    /**
     * `load_recipe(d)`: the recipe `d` describes, its resources resolved in
     * this catalog, added with `add_recipe`; AttributeError when an id is
     * not in the catalog.
     */
    method LoadRecipe(d: RecipeDict) returns (o: Outcome<string>)
      requires Valid()
      modifies this
      ensures Valid()
      ensures var rec := RecipeFromDict(old(resources), d);
        (rec.None? ==> o == Fail("AttributeError") && recipes == old(recipes)) &&
        (rec.Some? ==>
          (o.Pass? <==> old(RecipeById(d.id)).None?) &&
          (o.Pass? ==> recipes == old(recipes) + [rec.value] && modRecipes) &&
          (o.Fail? ==> recipes == old(recipes)))
      ensures resources == old(resources) && modResources == old(modResources)
      ensures o.Fail? ==> modRecipes == old(modRecipes)
    {
      var rec := RecipeFromDict(resources, d);
      if rec.None? {
        return Fail("AttributeError");
      }
      o := AddRecipe(rec.value);
    }
  }

  /** What `RecipeBuilder.resource` and `product` are given. */
  datatype ResourceArg =
    | Given(resource: Resource)
    | Absent                  // None
    | ById(id: string)        // a str: `resource is str` is false for it, so it is stored as it is

  /** `RecipeBuilder`: collects a recipe's parts and builds it. */
  class RecipeBuilder {
    const repo: RecipeRepository
    var name: string
    var id: string
    var resources: seq<Amount>
    var products: seq<Amount>
    var cycleTime: real
    /** A str was stored as a resource: `build` then fails on its missing `id`. */
    var untyped: bool

    constructor (repo: RecipeRepository)
      ensures this.repo == repo
      ensures name == "" && id == "" && resources == [] && products == [] && cycleTime == 1.0 && !untyped
    {
      this.repo := repo;
      name := "";
      id := "";
      resources := [];
      products := [];
      cycleTime := 1.0;
      untyped := false;
    }

    /** `name(name)`. */
    method SetName(n: string)
      modifies this
      ensures name == n
      ensures id == old(id) && resources == old(resources) && products == old(products)
      ensures cycleTime == old(cycleTime) && untyped == old(untyped)
    {
      name := n;
    }

    /** `id(id)`. */
    method SetId(i: string)
      modifies this
      ensures id == i
      ensures name == old(name) && resources == old(resources) && products == old(products)
      ensures cycleTime == old(cycleTime) && untyped == old(untyped)
    {
      id := i;
    }

    /** `cycle_time(time)`, in seconds. */
    method SetCycleTime(t: real)
      modifies this
      ensures cycleTime == t
      ensures name == old(name) && id == old(id) && resources == old(resources)
      ensures products == old(products) && untyped == old(untyped)
    {
      cycleTime := t;
    }

    /**
     * `resource(resource, quantity)`: appends one input. None raises; the
     * one-argument `ArgumentError(...)` call itself fails with TypeError.
     */
    method AddResource(arg: ResourceArg, quantity: real) returns (o: Outcome<string>)
      modifies this
      ensures arg.Absent? <==> o.Fail?
      ensures o.Fail? ==> o.error == "TypeError"
      ensures arg.Given? ==> resources == old(resources) + [Amount(arg.resource, quantity)]
      ensures !arg.Given? ==> resources == old(resources)
      ensures untyped == (old(untyped) || arg.ById?)
      ensures name == old(name) && id == old(id) && products == old(products) && cycleTime == old(cycleTime)
    {
      match arg
      case Absent =>
        return Fail("TypeError");
      case ById(_) =>
        untyped := true;
        return Pass;
      case Given(r) =>
        resources := resources + [Amount(r, quantity)];
        return Pass;
    }

    /** `product(resource, quantity)`: appends one product; None raises ArgumentError. */
    method AddProduct(arg: ResourceArg, quantity: real) returns (o: Outcome<string>)
      modifies this
      ensures arg.Absent? <==> o.Fail?
      ensures o.Fail? ==> o.error == "ArgumentError"
      ensures arg.Given? ==> products == old(products) + [Amount(arg.resource, quantity)]
      ensures !arg.Given? ==> products == old(products)
      ensures untyped == (old(untyped) || arg.ById?)
      ensures name == old(name) && id == old(id) && resources == old(resources) && cycleTime == old(cycleTime)
    {
      match arg
      case Absent =>
        return Fail("ArgumentError");
      case ById(_) =>
        untyped := true;
        return Pass;
      case Given(r) =>
        products := products + [Amount(r, quantity)];
        return Pass;
    }

    /**
     * `build()`: the recipe of the collected parts, repeated ids merged by
     * summing; AttributeError when a str was stored.
     */
    method Build() returns (r: Result<Recipe, string>)
      ensures untyped <==> r.Failure?
      ensures r.Failure? ==> r.error == "AttributeError"
      ensures r.Success? ==>
        r.value.name == name && r.value.id == id && r.value.cycleTime == cycleTime &&
        r.value.sourceName == None && Consistent(r.value) &&
        (forall k :: HasId(r.value.resources, k) <==> HasId(resources, k)) &&
        (forall k :: HasId(r.value.products, k) <==> HasId(products, k)) &&
        (forall k | HasId(resources, k) :: Lookup(r.value.resources, k).Some? &&
           Lookup(r.value.resources, k).value.quantity == SumQty(resources, k)) &&
        (forall k | HasId(products, k) :: Lookup(r.value.products, k).Some? &&
           Lookup(r.value.products, k).value.quantity == SumQty(products, k))
      ensures r.Success? ==> r.value == MakeRecipe(name, id, resources, products, cycleTime)
      ensures r.Success? ==>
        IdSeq(r.value.resources) == FirstOccurrences(IdSeq(resources)) &&
        IdSeq(r.value.products) == FirstOccurrences(IdSeq(products))
    {
      if untyped {
        return Failure("AttributeError");
      }
      return Success(MakeRecipe(name, id, resources, products, cycleTime));
    }
  }
}
