/**
 * The production tree (chaining.py): a `ProdNode` runs one recipe at some
 * rpm; each of its inputs becomes a child, an `EndNode` for a raw resource
 * or one nothing produces, or an `AltNode` holding one `ProdNode` per recipe
 * that produces it, fastest first, resolved in turn down to a depth limit.
 */
module Chaining {
  import opened Wrappers
  import opened Quantities
  import opened Recipes
  import opened Sorting
  import opened Repository
  import opened Text

  /** The two values `EndNode.end_type` takes. */
  datatype EndKind = Source | Unknown

  /** The name `end_type` holds for each kind. */
  function KindName(k: EndKind): string
  {
    match k
    case Source => "source"
    case Unknown => "unknown"
  }

  /** `EndNode.end_type` of the name given: 'source' in any case is a source, all else unknown. */
  function EndType(given: string): (t: EndKind)
    ensures t == Source <==> Lower(given) == "source"
  {
    if Lower(given) == "source" then Source else Unknown
  }

  lemma LowerSource()
    ensures Lower("source") == "source"
  {
    assert Lower("source")[..] == "source";
  }

  /** Each kind's own name gives that kind back. */
  lemma EndTypeOfName(k: EndKind)
    ensures EndType(KindName(k)) == k
  {
    LowerSource();
    if k == Unknown {
      assert |Lower("unknown")| != |"source"|;
    }
  }

  /**
   * `production` can be asked of this recipe for any of its products: the
   * cycle time and every product quantity, which it divides by, are nonzero.
   */
  predicate Producible(r: Recipe)
  {
    r.cycleTime != 0.0 && forall i | 0 <= i < |r.products| :: r.products[i].quantity != 0.0
  }

  predicate CatalogProducible(recipes: seq<Recipe>)
  {
    forall r | r in recipes :: Producible(r)
  }

  /** The base rpm of recipe `r` producing `p`, by which alternatives are ordered. */
  function RecipeRpm(p: Resource, r: Recipe): real
  {
    if Producible(r) && HasId(r.products, p.id) then Production(r, p).value.baseRpm else 0.0
  }

  function RecipeKey(p: Resource): Recipe -> real
  {
    r => RecipeRpm(p, r)
  }

  /** `EndNode`: a leaf for one input, a raw 'source' or an 'unknown' one. */
  class EndNode {
    const resource: Amount
    const parent: ProdNode
    const endType: EndKind

    constructor (resource: Amount, parent: ProdNode, endType: string)
      ensures this.resource == resource && this.parent == parent && this.endType == EndType(endType)
    {
      this.resource := resource;
      this.parent := parent;
      this.endType := EndType(endType);
    }

    predicate IsSource()
    {
      endType == Source
    }
  }

  /** A child of a `ProdNode`. */
  datatype Child = End(end: EndNode) | Alt(alt: AltNode)

  /** Every object a child's subtree is made of. */
  ghost function ChildRepr(c: Child): set<object>
    reads if c.Alt? then {c.alt} else {}
  {
    match c
    case End(e) => {e as object}
    case Alt(a) => {a as object} + a.Repr
  }


  /** Appending the child for the next input keeps each child matched with its input. */
  lemma AppendChild(made: seq<Child>, c: Child, deps: seq<Amount>, parent: ProdNode, catalog: seq<Recipe>,
                    level: int, maxLevel: int)
    requires |made| < |deps|
    requires forall j | 0 <= j < |made| :: ChildFor(made[j], deps[j], parent, catalog, level, maxLevel)
    requires ChildFor(c, deps[|made|], parent, catalog, level, maxLevel)
    ensures forall j | 0 <= j < |made| + 1 :: ChildFor((made + [c])[j], deps[j], parent, catalog, level, maxLevel)
  {
    forall j | 0 <= j < |made| + 1
      ensures ChildFor((made + [c])[j], deps[j], parent, catalog, level, maxLevel)
    {
      if j < |made| {
        assert (made + [c])[j] == made[j];
      }
    }
  }

  /** The sort key of a slot: the base rpm of its production. */
  function BaseRpm(n: ProdNode): real
  {
    if n.production.Some? then n.production.value.baseRpm else 0.0
  }

  function SlotRecipe(n: ProdNode): Recipe
  {
    n.recipe
  }

  /** `AltNode`: the alternative ways of producing `product`, one slot each. */
  class AltNode {
    const product: Resource
    var slots: seq<ProdNode>
    var activeSlot: nat
    /** The slots and everything below them. */
    ghost var Repr: set<object>

    constructor (product: Resource)
      ensures this.product == product && slots == [] && activeSlot == 0 && Repr == {}
    {
      this.product := product;
      slots := [];
      activeSlot := 0;
      Repr := {};
    }

    /** `add(node)`: the node, and everything below it, joins the footprint. */
    method Add(node: ProdNode)
      modifies this
      ensures slots == old(slots) + [node] && activeSlot == old(activeSlot)
      ensures Repr == old(Repr) + {node} + node.Repr
    {
      slots := slots + [node];
      Repr := Repr + {node} + node.Repr;
    }

    /**
     * `sort(order)`: for 'stations', the slots by decreasing base rpm, equal
     * keys in their previous order; any other order leaves them alone.
     */
    method Sort(order: string)
      modifies this
      ensures order == "stations" ==> slots == SortDesc(old(slots), BaseRpm)
      ensures order == "stations" ==> NonIncreasing(slots, BaseRpm) && multiset(slots) == multiset(old(slots))
      ensures forall s | s in slots :: s in old(slots)
      ensures order != "stations" ==> slots == old(slots)
      ensures activeSlot == old(activeSlot) && Repr == old(Repr)
    {
      if order == "stations" {
        SortDescSorted(slots, BaseRpm);
        SortDescPermutes(slots, BaseRpm);
        ghost var before := slots;
        slots := SortDesc(slots, BaseRpm);
        assert forall s | s in slots :: s in multiset(before);
      }
    }

    /** `active()`: the active slot, the first when that index is past the end, None when empty. */
    function Active(): (r: Option<ProdNode>)
      reads this
      ensures r.None? <==> slots == []
      ensures r.Some? ==> r.value in slots
      ensures activeSlot < |slots| ==> r == Some(slots[activeSlot])
      ensures slots != [] && activeSlot >= |slots| ==> r == Some(slots[0])
    {
      if |slots| > activeSlot then Some(slots[activeSlot])
      else if |slots| > 0 then Some(slots[0])
      else None
    }

    /** `__iter__`: the children of the active slot; an empty node raises. */
    function Iter(): (r: Result<seq<Child>, string>)
      reads this, set s | s in slots
      ensures r.Failure? <==> slots == []
      ensures r.Failure? ==> r.error == "invalid active slot!"
      ensures r.Success? ==> r.value == Active().value.children
    {
      var a := Active();
      if a.None? then Failure("invalid active slot!") else Success(a.value.children)
    }
  }

  /**
   * A node whose slots are in 'stations' order, with slot 0 active: the slot
   * `active()` returns has the highest base rpm of them all.
   */
  lemma ActiveIsFastest(a: AltNode)
    requires NonIncreasing(a.slots, BaseRpm) && a.slots != [] && a.activeSlot == 0
    ensures a.Active().Some?
    ensures forall s | s in a.slots :: BaseRpm(s) <= BaseRpm(a.Active().value)
  {
    forall s | s in a.slots
      ensures BaseRpm(s) <= BaseRpm(a.slots[0])
    {
      var i :| 0 <= i < |a.slots| && a.slots[i] == s;
      if i > 0 {
        assert BaseRpm(a.slots[0]) >= BaseRpm(a.slots[i]);
      }
    }
  }

  /** A production's inputs, at any rate, are the recipe's inputs, one for one. */
  lemma InputCount(r: Recipe, p: Resource, rpm: real)
    requires r.cycleTime != 0.0 && NonZeroProduct(r, p.id) && HasId(r.products, p.id)
    ensures |ForRpm(Production(r, p).value, rpm).resources| == |r.resources|
  {
    ProductionParts(r, p);
    var t := Production(r, p).value;
    assert |IdSeq(ForRpm(t, rpm).resources)| == |IdSeq(t.resources)|;
  }

  /**
   * A slot for input `d` of `parent` runs the production of its recipe for
   * `d`'s resource at `d`'s quantity.
   */
  ghost predicate SlotRuns(s: ProdNode, d: Amount, parent: ProdNode)
  {
    Producible(s.recipe) && HasId(s.recipe.products, d.resource.id) &&
    s.production == Production(s.recipe, d.resource) && s.rpm == d.quantity && s.parent == Some(parent)
  }

  /**
   * A slot made at `level`: resolved in turn at the next level exactly when
   * `level < maxLevel`, and left without children otherwise.
   */
  ghost predicate Expanded(s: ProdNode, catalog: seq<Recipe>, level: int, maxLevel: int)
    reads s, s.Repr
    decreases maxLevel - level, 0
  {
    if level < maxLevel then Resolved(s, [], catalog, level + 1, maxLevel) else s.children == []
  }

  /** A slot's sort key is the key of its recipe for the same product. */
  lemma SlotKeys(slots: seq<ProdNode>, d: Amount, parent: ProdNode)
    requires forall s | s in slots :: SlotRuns(s, d, parent)
    ensures forall i | 0 <= i < |slots| :: RecipeKey(d.resource)(SlotRecipe(slots[i])) == BaseRpm(slots[i])
  {
    forall i | 0 <= i < |slots|
      ensures RecipeKey(d.resource)(SlotRecipe(slots[i])) == BaseRpm(slots[i])
    {
      assert SlotRuns(slots[i], d, parent);
    }
  }

  /**
   * The child `resolve_children` makes for input `d` of `parent`: a 'source'
   * leaf for a raw resource, an 'unknown' leaf when no recipe produces it,
   * otherwise the alternatives of the recipes that do.
   */
  ghost predicate ChildFor(c: Child, d: Amount, parent: ProdNode, catalog: seq<Recipe>, level: int, maxLevel: int)
    reads ChildRepr(c)
    decreases maxLevel - level, 2
  {
    var found := Producing(catalog, d.resource.id);
    if d.resource.isRaw then
      c.End? && c.end.resource == d && c.end.parent == parent && c.end.endType == Source
    else if found == [] then
      c.End? && c.end.resource == d && c.end.parent == parent && c.end.endType == Unknown
    else
      c.Alt? && AltFor(c.alt, d, parent, found, catalog, level, maxLevel)
  }

  /**
   * The alternatives for a non-raw input `d` that `found` recipes produce:
   * one slot per recipe, fastest first, slot 0 active.
   */
  ghost predicate AltFor(a: AltNode, d: Amount, parent: ProdNode, found: seq<Recipe>, catalog: seq<Recipe>,
                         level: int, maxLevel: int)
    reads a, a.Repr
    decreases maxLevel - level, 1
  {
    a.product == d.resource && a.activeSlot == 0 &&
    MapSeq(a.slots, SlotRecipe) == SortDesc(found, RecipeKey(d.resource)) &&
    forall s | s in a.slots ::
      s in a.Repr && s.Repr <= a.Repr && SlotRuns(s, d, parent) && Expanded(s, catalog, level, maxLevel)
  }

  /**
   * `n` after `resolve_children` at `level`: one child per input of its
   * production at its rpm, in order, appended to the children it had, each
   * child's subtree inside `n.Repr`.
   */
  ghost predicate Resolved(n: ProdNode, before: seq<Child>, catalog: seq<Recipe>, level: int, maxLevel: int)
    reads n, n.Repr
    decreases maxLevel - level, 3
  {
    n.production.Some? &&
    var deps := InputsAt(n.production.value, n.rpm);
    |n.children| == |before| + |deps| && n.children[..|before|] == before &&
    forall j | 0 <= j < |deps| ::
      var c := n.children[|before| + j];
      (c.Alt? ==> c.alt in n.Repr) && ChildRepr(c) <= n.Repr &&
      ChildFor(c, deps[j], n, catalog, level, maxLevel)
  }

  /** `ProdNode`: one recipe run at `rpm` units of its product per minute. */
  class ProdNode {
    const recipe: Recipe
    const production: Option<TargetedProduction>
    const rpm: real
    const parent: Option<ProdNode>
    var children: seq<Child>
    /** Every object below this node. */
    ghost var Repr: set<object>

    constructor (recipe: Recipe, production: Option<TargetedProduction>, rpm: real, parent: Option<ProdNode>)
      ensures this.recipe == recipe && this.production == production && this.rpm == rpm
      ensures this.parent == parent && children == [] && Repr == {}
    {
      this.recipe := recipe;
      this.production := production;
      this.rpm := rpm;
      this.parent := parent;
      children := [];
      Repr := {};
    }

    /**
     * `resolve_children(repository, level, max_level)`: a child per input;
     * a node without a production fails on `None.for_rpm`.
     */
    method ResolveChildren(repo: RecipeRepository, level: int, maxLevel: int) returns (o: Outcome<string>)
      requires CatalogProducible(repo.recipes)
      modifies this
      decreases maxLevel - level, 6
      ensures o.Fail? <==> production.None?
      ensures o.Fail? ==> o.error == "AttributeError" && children == old(children) && Repr == old(Repr)
      ensures fresh(Repr - old(Repr))
      ensures o.Pass? ==> Resolved(this, old(children), repo.recipes, level, maxLevel)
    {
      if production.None? {
        return Fail("AttributeError");
      }
      var deps := InputsAt(production.value, rpm);
      var made := ResolveAll(deps, repo, level, maxLevel);
      ghost var below := set j, o | 0 <= j < |made| && o in ChildRepr(made[j]) :: o;
      children := children + made;
      Repr := Repr + below;
      assert children[..|old(children)|] == old(children);
      assert forall j | 0 <= j < |made| :: children[|old(children)| + j] == made[j];
      return Pass;
    }

    /** The loop of `resolve_children`: the child for each input in `deps`, in order. */
    method ResolveAll(deps: seq<Amount>, repo: RecipeRepository, level: int, maxLevel: int)
      returns (made: seq<Child>)
      requires CatalogProducible(repo.recipes)
      decreases maxLevel - level, 5
      ensures |made| == |deps|
      ensures forall j | 0 <= j < |made| :: fresh(ChildRepr(made[j]))
      ensures forall j | 0 <= j < |made| ::
        ChildFor(made[j], deps[j], this, repo.recipes, level, maxLevel)
    {
      ghost var catalog := repo.recipes;
      made := [];
      var i := 0;
      while i < |deps|
        invariant 0 <= i <= |deps| && |made| == i
        invariant repo.recipes == catalog
        invariant forall j | 0 <= j < |made| :: fresh(ChildRepr(made[j]))
        invariant forall j | 0 <= j < |made| ::
          ChildFor(made[j], deps[j], this, catalog, level, maxLevel)
      {
        var c := ResolveDependency(deps[i], repo, level, maxLevel);
        AppendChild(made, c, deps, this, catalog, level, maxLevel);
        made := made + [c];
        i := i + 1;
      }
    }

    /** One turn of the loop in `resolve_children`: the child for input `d`. */
    method ResolveDependency(d: Amount, repo: RecipeRepository, level: int, maxLevel: int) returns (c: Child)
      requires CatalogProducible(repo.recipes)
      decreases maxLevel - level, 4
      ensures fresh(ChildRepr(c))
      ensures ChildFor(c, d, this, repo.recipes, level, maxLevel)
    {
      if d.resource.isRaw {
        EndTypeOfName(Source);
        var e := new EndNode(d, this, "source");
        return End(e);
      }
      var found := repo.FindRecipesByProduct(d.resource);
      if found == [] {
        EndTypeOfName(Unknown);
        var e := new EndNode(d, this, "unknown");
        return End(e);
      }
      var alternatives := Alternatives(found, d, repo, level, maxLevel);
      c := Alt(alternatives);
    }

    /**
     * The alternatives for `d` in `resolve_children`: a new `AltNode`, a slot
     * per recipe in `found`, then sorted.
     */
    method Alternatives(found: seq<Recipe>, d: Amount, repo: RecipeRepository, level: int, maxLevel: int)
      returns (alternatives: AltNode)
      requires CatalogProducible(repo.recipes)
      requires forall r {:trigger r in found} | r in found :: r in repo.recipes && HasId(r.products, d.resource.id)
      decreases maxLevel - level, 3
      ensures fresh(alternatives) && fresh(alternatives.Repr)
      ensures AltFor(alternatives, d, this, found, repo.recipes, level, maxLevel)
    {
      alternatives := new AltNode(d.resource);
      FillSlots(alternatives, found, d, repo, level, maxLevel);
      SortSlots(alternatives, found, d, repo.recipes, level, maxLevel);
    }

    /** The inner loop of `resolve_children`: one slot per recipe in `found`, in order. */
    method FillSlots(alternatives: AltNode, found: seq<Recipe>, d: Amount, repo: RecipeRepository,
                     level: int, maxLevel: int)
      requires CatalogProducible(repo.recipes)
      requires forall r {:trigger r in found} | r in found :: r in repo.recipes && HasId(r.products, d.resource.id)
      requires alternatives.slots == [] && alternatives.activeSlot == 0 && alternatives.Repr == {}
      modifies alternatives
      decreases maxLevel - level, 2
      ensures alternatives.activeSlot == 0 && fresh(alternatives.Repr)
      ensures MapSeq(alternatives.slots, SlotRecipe) == found
      ensures forall s | s in alternatives.slots ::
        s in alternatives.Repr && s.Repr <= alternatives.Repr && alternatives !in s.Repr &&
        SlotRuns(s, d, this) && Expanded(s, repo.recipes, level, maxLevel)
    {
      var k := 0;
      while k < |found|
        invariant 0 <= k <= |found|
        invariant alternatives.activeSlot == 0 && fresh(alternatives.Repr)
        invariant |alternatives.slots| == k
        invariant forall j | 0 <= j < k :: alternatives.slots[j].recipe == found[j]
        invariant forall s | s in alternatives.slots ::
          s in alternatives.Repr && s.Repr <= alternatives.Repr && alternatives !in s.Repr &&
          SlotRuns(s, d, this) && Expanded(s, repo.recipes, level, maxLevel)
      {
        assert found[k] in found;
        AddSlot(alternatives, found, k, d, repo, level, maxLevel);
        k := k + 1;
      }
    }

    /** The inner loop's body: `alternatives.add` of a new slot for `found[k]`. */
    method AddSlot(alternatives: AltNode, found: seq<Recipe>, k: int, d: Amount, repo: RecipeRepository,
                   level: int, maxLevel: int)
      requires CatalogProducible(repo.recipes) && 0 <= k < |found|
      requires found[k] in repo.recipes && HasId(found[k].products, d.resource.id)
      requires |alternatives.slots| == k
      requires forall j | 0 <= j < k :: alternatives.slots[j].recipe == found[j]
      requires forall s | s in alternatives.slots ::
        s in alternatives.Repr && s.Repr <= alternatives.Repr && alternatives !in s.Repr &&
        SlotRuns(s, d, this) && Expanded(s, repo.recipes, level, maxLevel)
      modifies alternatives
      decreases maxLevel - level, 1
      ensures alternatives.activeSlot == old(alternatives.activeSlot)
      ensures fresh(alternatives.Repr - old(alternatives.Repr))
      ensures repo.recipes == old(repo.recipes)
      ensures |alternatives.slots| == k + 1
      ensures forall j | 0 <= j < k + 1 :: alternatives.slots[j].recipe == found[j]
      ensures forall s | s in alternatives.slots ::
        s in alternatives.Repr && s.Repr <= alternatives.Repr && alternatives !in s.Repr &&
        SlotRuns(s, d, this) && Expanded(s, repo.recipes, level, maxLevel)
    {
      var child := MakeSlot(found[k], d, repo, level, maxLevel);
      alternatives.Add(child);
    }

    /** `alternatives.sort()` after the loop, with what it keeps of each slot. */
    method SortSlots(alternatives: AltNode, found: seq<Recipe>, d: Amount, catalog: seq<Recipe>,
                     level: int, maxLevel: int)
      requires alternatives.product == d.resource && alternatives.activeSlot == 0
      requires MapSeq(alternatives.slots, SlotRecipe) == found
      requires forall s | s in alternatives.slots ::
        s in alternatives.Repr && s.Repr <= alternatives.Repr && alternatives !in s.Repr &&
        SlotRuns(s, d, this) && Expanded(s, catalog, level, maxLevel)
      modifies alternatives
      ensures AltFor(alternatives, d, this, found, catalog, level, maxLevel)
      ensures alternatives.Repr == old(alternatives.Repr)
    {
      SlotKeys(alternatives.slots, d, this);
      SortDescMap(alternatives.slots, SlotRecipe, BaseRpm, RecipeKey(d.resource));
      alternatives.Sort("stations");
    }

    /**
     * The inner loop's body in `resolve_children`: a node for `recipe` making
     * `d`, child of this one, resolved at the next level below `maxLevel`.
     */
    method MakeSlot(recipe: Recipe, d: Amount, repo: RecipeRepository, level: int, maxLevel: int)
      returns (child: ProdNode)
      requires CatalogProducible(repo.recipes) && recipe in repo.recipes && HasId(recipe.products, d.resource.id)
      decreases maxLevel - level, 0
      ensures fresh(child) && fresh(child.Repr) && child.recipe == recipe
      ensures SlotRuns(child, d, this) && Expanded(child, repo.recipes, level, maxLevel)
    {
      child := new ProdNode(recipe, Production(recipe, d.resource), d.quantity, Some(this));
      if level < maxLevel {
        var _ := child.ResolveChildren(repo, level + 1, maxLevel);
      }
    }
  }

  /** `build`'s default depth limit. */
  const DefaultMaxDepth := 15

  /** `ProductionTree`: the root node for a recipe run to make `target` at `targetRpm`. */
  class ProductionTree {
    const root: ProdNode

    constructor (rootRecipe: Recipe, target: Resource, targetRpm: real)
      requires rootRecipe.cycleTime != 0.0 && NonZeroProduct(rootRecipe, target.id)
      ensures fresh(root) && root.recipe == rootRecipe && root.production == Production(rootRecipe, target)
      ensures root.rpm == targetRpm && root.parent == None && root.children == []
    {
      root := new ProdNode(rootRecipe, Production(rootRecipe, target), targetRpm, None);
    }

    /**
     * `build(repository, max_depth)`: resolves the root at level 0; a root
     * recipe that does not produce the target fails.
     */
    method Build(repo: RecipeRepository, maxDepth: int) returns (o: Outcome<string>)
      requires CatalogProducible(repo.recipes)
      modifies root
      ensures o.Fail? <==> root.production.None?
      ensures o.Fail? ==> root.children == old(root.children)
      ensures fresh(root.Repr - old(root.Repr))
      ensures o.Pass? ==> Resolved(root, old(root.children), repo.recipes, 0, maxDepth)
    {
      o := root.ResolveChildren(repo, 0, maxDepth);
    }
  }
}
