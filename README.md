# factory-planner: production model, recipe catalog and dependency tree

This project models the core of a factory planner and proves properties about it. The planner works out which recipes, at which rates, produce a wanted product.

- **Production model** (`data.py`). It has resources, and resource quantities kept in an insertion-ordered map from id to quantity, where re-adding an id adds to the stored object. It converts a recipe's per-cycle quantities into per-minute rates with the factor `60 / cycle_time`. It also has the per-station scale rule of `ScaledRecipe`, with its 0.09 hysteresis and its rounding up to whole stations.
  - Modules: `Quantities` (`data_quantities.dfy`), `Recipes` (`data_recipes.dfy`), `Scaling` (`data_scaling.dfy`).
- **Catalog** (`repository.py`). Two insertion-ordered maps that reject duplicate ids. Lookups by id and by name. The filter that finds the recipes for a product. The dict-to-entity loaders. The fluent `RecipeBuilder`.
  - Module: `Repository` (`repository.dfy`).
- **Dependency tree** (`chaining.py`). A production node expands each input of its recipe:
  - a raw input becomes a `source` leaf;
  - an input no recipe produces becomes an `unknown` leaf;
  - any other input becomes an alternatives node. It holds one production node per producing recipe, each expanded one level deeper while the level is below the maximum, and sorted by base rate, fastest first.
  - Module: `Chaining` (`chaining.dfy`).
- **Command-line helpers** (`cli.py`). Id generation from names; `name` / `@id` resource references; pairing of `name quantity` arguments; the `h:m:s` cycle time; the default id of a new recipe or resource; command lookup by name.
  - Module: `Cli` (`cli.dfy`).
- **Supporting modules.**
  - `Wrappers` (`wrappers.dfy`): `Option`, `Result` and `Outcome`. An exception is modelled as a `Failure`/`Fail` carrying the exception's name.
  - `Sorting` (`sorting.dfy`): the stable descending sort that `list.sort(reverse=True)` performs, with its permutation and order lemmas.
  - `Text` (`text.dfy`): ASCII lower-casing.

Objects the source updates in place are classes:
- `ResourceQuantity`, `ResourceQuantities`, `ScaledRecipe`, `RecipeRepository`, `RecipeBuilder`;
- the tree nodes `EndNode`, `AltNode` and `ProdNode`, and `ProductionTree`.

Values the source never mutates after construction are datatypes: `Resource`, `Amount` (a quantity of a resource), `Recipe`, `TargetedProduction`, `ProductionResources` and `RecipeComponents`.

Quantities, rates and scales are `real`. String-to-number parsing (`float(s)`) is a function parameter `toNumber: string -> Option<real>`, where `None` stands for the ValueError.

In two places in the recipe builder the code does something other than what it evidently means; the model follows the code there:
- `RecipeBuilder.resource(None)` builds `ArgumentError` with a single argument (repository.py:141). `argparse.ArgumentError` takes two, so the call raises `TypeError`, and `Repository.RecipeBuilder.AddResource` fails with `"TypeError"`. `RecipeBuilder.product` passes both arguments (repository.py:149) and fails with `"ArgumentError"`.
- `RecipeBuilder.resource` and `RecipeBuilder.product` test `resource is str` (repository.py:139, 147). That test is false for every string, so an id string is never looked up. It is stored as it is, and `build` then fails with `AttributeError` when it reads `.resource.id`. The model represents this with `ResourceArg.ById` and the builder's `untyped` flag.

## Model

| member | source | states |
|---|---|---|
| Quantities.ScaleAllCompose | data.py:47-48 | scaling a quantity list by `f` and then by `g` is scaling it by `f * g` |
| Quantities.ScaleAllAt | data.py:47-48 | each scaled entry keeps its resource and has its quantity multiplied by the factor |
| Quantities.InsertEffect | data.py:79-84 | adding an id already present adds to that entry only, keeping the count and order; a new id is appended and the count grows by one |
| Quantities.MergeDistinct | data.py:70-77 | building the map from a list gives distinct ids, exactly the ids of the list |
| Quantities.MergeSums | data.py:70-77 | the merged quantity of an id is the sum of all the list's quantities for that id, kept on the first entry's resource |
| Quantities.MergeOrder | data.py:70-77 | the merged ids are the list's ids, each at the place the list first names it |
| Quantities.MergeOfDistinct | data.py:70-77 | a list with distinct ids is stored unchanged, in its order |
| Quantities.SameQuantitiesMeaning | data.py:115-125 | `is_equal` holds iff both maps have the same ids and equal entries per id |
| Quantities.DistinctCard | data.py:107-108 | the number of entries equals the number of distinct ids |
| Quantities.ResourceQuantities.Len | data.py:107-108 | `len` is the number of entries and of distinct ids |
| Quantities.FirstObjectsListed | data.py:70-77 | every object the dict stores is one of the listed objects |
| Quantities.FirstObjectsIds | data.py:70-77 | the stored objects hold exactly the ids some listed object holds |
| Quantities.FirstObjectsMeaning | data.py:70-77 | a listed object is stored iff no earlier listed object has its id |
| Quantities.ResourceQuantities.constructor | data.py:70-77 | the new map holds the merge of the given objects' values; it stores exactly the listed objects no earlier object shares an id with, so its ids are exactly the listed ids; a stored object's quantity absorbs the later duplicates and every other listed object keeps its quantity |
| Quantities.ResourceQuantities.AddEach | data.py:73-77 | the constructor's loop establishes every fact in the constructor row |
| Quantities.ResourceQuantities.AddNext | data.py:73-77 | one turn of that loop: the stored objects and the contents after `i + 1` objects are those of the first `i + 1`, and unstored objects keep their values |
| Quantities.ResourceQuantities.Add | data.py:79-84 | the contents become the insertion of the added value; a present id mutates the stored object and keeps the entry list, a new id appends the given object itself |
| Quantities.ResourceQuantities.AddTo | data.py:81-82 | increasing the stored object for a present id gives the insertion of the added value into the contents |
| Quantities.ResourceQuantities.Copy | data.py:110-113 | the copy is a new map over the very same stored objects (aliasing), with equal contents |
| Quantities.ResourceQuantities.IsEqual | data.py:115-125 | the result is true iff both maps have the same ids and equal quantities per id |
| Quantities.ResourceQuantities.CopyShallow | data.py:127-131 | the copy has equal contents and every stored object is new, so nothing is shared |
| Quantities.FreshCopies | data.py:127-131 | adding fresh copies of distinct values one by one gives a map with exactly those values, all in new objects |
| Recipes.ForRpm | data.py:152-155 | resources and byproducts keep their length, order and ids |
| Recipes.ForRpmLinear | data.py:152-155 | `for_rpm(rpm * f)` is `for_rpm(rpm)` with every quantity multiplied by `f` |
| Recipes.MakeRecipe | data.py:189-194 | a recipe stores merged inputs and outputs: the same ids, each once and in first-occurrence order, quantities summed per id, no source name |
| Recipes.Without | data.py:202 | the entries kept are exactly those whose id is not the product's |
| Recipes.Production | data.py:196-204 | None iff the product is not among the recipe's products; otherwise the target is that product with a nonzero base rate |
| Recipes.ProductionParts | data.py:196-204 | the target is the product; entry `i` of the resources is the recipe's input `i` times `1/q`; entry `i` of the byproducts is the recipe's `i`-th other product times `1/q`; the base rate is `(60/cycle_time) * q` with `q` nonzero |
| Recipes.ProductionPerUnit | data.py:200-204 | scaling the production back by `q` gives the recipe's resources and its other products |
| Recipes.ProductionAtBaseRpm | data.py:196-211 | at its base rate, the production needs exactly the resources of `scaled(1)` and yields exactly its other products |
| Recipes.ProductionAsWritten | data.py:196-204 | the production as written returns None iff the product is absent |
| Recipes.ProductionAsWrittenOverstatesByproducts | data.py:202 | with byproducts scaled by `q`, a recipe making 2 A and 1 B reports 4 B per minute at its base rate where it makes 1 |
| Recipes.ScaledRates | data.py:206-211 | `scaled(f)` multiplies every resource and product quantity by `(60/cycle_time) * f` |
| Recipes.ScaleAllKeepsIds | data.py:206-211 | scaling keeps the id sequence, hence the key set, and keeps ids distinct |
| Recipes.NthProduct | data.py:270-276 | the `n`-th product's resource in insertion order, None when `n` is out of range |
| Recipes.ScaleFactorForProduct | data.py:290-292 | a factor exists iff the recipe lists the product |
| Recipes.ScaleFactorMeetsTarget | data.py:290-292 | scaling the recipe by the factor produces exactly the target rate of the product |
| Recipes.RecipeIsEqualMeaning | data.py:294-302 | `is_equal` holds iff source name, name and id agree and the resources have the same ids and quantities |
| Recipes.RecipeIsEqualIgnoresProducts | data.py:294-302 | recipes differing only in products and cycle time are equal |
| Recipes.QuantitiesAsDicts | data.py:56-60 | each dict holds the entry's resource id and quantity, in order |
| Scaling.BestScaleIsMax | data.py:319-328 | the loop's result is at least the start scale, at least every candidate `scale * demand / product_qty`, and equal to the start or to one of them |
| Scaling.BestScaleFails | data.py:322-326 | the loop raises iff some demanded product is listed with quantity zero |
| Scaling.BestScaleLoop | data.py:319-328 | the loop computes the largest candidate scale, failing on a zero quantity |
| Scaling.MinRpmScaleRaises | data.py:319-330 | the new scale is never lower; when it changes it rises by more than 0.09 to the largest candidate |
| Scaling.AdjustedIsScaleFactor | data.py:290-292 | a candidate scale equals `scale_factor_for_product` of the demanded rate |
| Scaling.MinRpmScaleIdempotent | data.py:319-330 | a second update with the same demands changes nothing |
| Scaling.CeiledScaleMeaning | data.py:332-334 | a positive scale whose fraction exceeds 0.09 becomes the next whole number; any other scale is kept; the result is at least the old scale |
| Scaling.CeiledScaleIdempotent | data.py:332-334 | rounding up twice is rounding up once |
| Scaling.Trunc | data.py:333 | `int(x)` truncates toward zero |
| Scaling.Ceil | data.py:334 | `math.ceil` is the least integer not below `x` |
| Scaling.ScaledRecipe.ScaleForMinRpm | data.py:319-330 | the scale becomes the updated scale, or stays unchanged with the division error |
| Scaling.ScaledRecipe.CeilScale | data.py:332-334 | the scale becomes its rounded-up value |
| Repository.FindKey | repository.py:56-60 | the index of the entry whose key is the id, or -1 when no entry has it |
| Repository.LookupKey | repository.py:56-60 | `dict.get`: the stored entry with that id, None iff no entry has it; used for both the resources and the recipes dict |
| Repository.Producing | repository.py:74-80 | the recipes kept are exactly the catalog's recipes whose products contain the id |
| Repository.ProducingAppend | repository.py:74-80 | the filter distributes over concatenation, so catalog order is preserved |
| Repository.FindRecipesByProductAsWritten | repository.py:77 | with `.get` on the products map, the search succeeds only on an empty catalog |
| Repository.FindRecipesByProductAsWrittenFails | repository.py:77 | a one-recipe catalog producing the product raises instead of returning that recipe |
| Repository.ResourceFromDict | repository.py:37-38 | a loaded resource takes name and id from the dict and is never raw |
| Repository.ResourceRoundTrip | repository.py:37-38 | loading `as_dict` of a resource gives it back with `is_raw` dropped |
| Repository.AmountsFromDicts | repository.py:45-46 | the quantities load iff every id is in the catalog, pairing each catalog resource with its quantity in order |
| Repository.RecipeFromDict | repository.py:41-53 | a loaded recipe is merged and has no source name |
| Repository.AmountsRoundTrip | repository.py:45-46 | loading the dicts of quantities whose resources are in the catalog gives them back |
| Repository.RecipeRoundTrip | repository.py:41-53 | loading `as_dict` of a recipe gives back its name, id, cycle time and quantities, with the source name dropped |
| Repository.RecipeRepository.constructor | repository.py:17-21 | the catalog starts empty and unmodified |
| Repository.RecipeRepository.ResourceById | repository.py:56-57 | `resource(id)`: the stored resource for the id, None iff absent |
| Repository.RecipeRepository.RecipeById | repository.py:59-60 | `recipe(id)`: the stored recipe for the id, None iff absent |
| Repository.RecipeRepository.AddResource | repository.py:23-28 | an absent id is appended and the flag set; a present id raises DuplicateKeyError and changes nothing |
| Repository.RecipeRepository.AddRecipe | repository.py:30-35 | an absent id is appended and the flag set; a present id raises DuplicateKeyError and changes nothing |
| Repository.RecipeRepository.ResourceByName | repository.py:62-66 | the first resource in insertion order with the name, None iff none has it |
| Repository.RecipeRepository.RecipeByName | repository.py:68-72 | the first recipe in insertion order with the name, None iff none has it |
| Repository.RecipeRepository.FindRecipesByProduct | repository.py:74-80 | the result is exactly the catalog's recipes producing the product, in catalog order |
| Repository.RecipeRepository.LoadResource | repository.py:37-39 | the loaded resource is added under the duplicate-id rule |
| Repository.RecipeRepository.LoadRecipe | repository.py:41-54 | a dict naming an unknown resource raises AttributeError and changes nothing; otherwise the loaded recipe is added under the duplicate-id rule |
| Repository.RecipeBuilder.constructor | repository.py:122-128 | the builder starts with empty name, id and lists and a cycle time of one second |
| Repository.RecipeBuilder.SetName | repository.py:130-132 | sets the name and nothing else |
| Repository.RecipeBuilder.SetId | repository.py:134-136 | sets the id and nothing else |
| Repository.RecipeBuilder.SetCycleTime | repository.py:154-156 | sets the cycle time and nothing else |
| Repository.RecipeBuilder.AddResource | repository.py:138-144 | None raises (TypeError, see above); a resource appends exactly one entry; an id string is stored as it is and poisons `build` |
| Repository.RecipeBuilder.AddProduct | repository.py:146-152 | None raises ArgumentError; a resource appends exactly one entry; an id string is stored as it is and poisons `build` |
| Repository.RecipeBuilder.Build | repository.py:158-159 | AttributeError iff an id string was stored; otherwise the recipe has the last name, id and cycle time, and the given resources and products merged per id, quantities summed, ids in first-occurrence order |
| Chaining.EndType | chaining.py:27-30 | the end type is `source` exactly when the given type lower-cases to `source` |
| Chaining.EndTypeOfName | chaining.py:24-30 | each end type given by its own name is kept |
| Chaining.EndNode.constructor | chaining.py:24-30 | the leaf keeps its quantity and parent, with the normalised end type |
| Chaining.AltNode.constructor | chaining.py:45-48 | a new alternatives node has no slots and active slot 0 |
| Chaining.AltNode.Add | chaining.py:50-51 | appends the slot and nothing else; the slot's subtree joins the node's footprint |
| Chaining.AltNode.Sort | chaining.py:54-58 | `stations` makes the slots the stable descending sort by base rate, a permutation with non-increasing rates; any other order leaves them |
| Chaining.ActiveIsFastest | chaining.py:54-66 | for a node whose slots are in `stations` order (as `Sort("stations")` leaves them) with slot 0 active, `active()` returns a slot with the highest base rate of all its slots |
| Chaining.AltNode.Active | chaining.py:60-66 | `slots[active_slot]` when in range, otherwise `slots[0]`; None iff there are no slots |
| Chaining.AltNode.Iter | chaining.py:68-73 | iterating raises `invalid active slot!` iff there are no slots, otherwise yields the children of the slot `active()` returns |
| Chaining.InputCount | chaining.py:86 | `for_rpm` of a recipe's production has one dependency per recipe input |
| Chaining.ProdNode.constructor | chaining.py:78-83 | the node keeps recipe, production, rate and parent, with no children |
| Chaining.ProdNode.ResolveChildren | chaining.py:85-106 | with no production it raises AttributeError and changes nothing; otherwise the node is `Resolved`: one child per dependency of `for_rpm(rpm)`, in order, after the children it had, each child the `ChildFor` its dependency, recursively down the whole subtree |
| Chaining.ProdNode.ResolveAll | chaining.py:86-106 | the dependency loop makes one new child per dependency, each the `ChildFor` that dependency |
| Chaining.ProdNode.ResolveDependency | chaining.py:87-106 | the child is the `ChildFor` the dependency: a raw resource gives a `source` leaf, no producing recipe an `unknown` leaf carrying the dependency, otherwise the `AltFor` of the recipes producing it |
| Chaining.ProdNode.Alternatives | chaining.py:88-104 | a new alternatives node that is the `AltFor` of the found recipes: product, active slot 0, slot recipes the found ones sorted fastest first, each slot running its recipe for the dependency and expanded to the maximum level |
| Chaining.ProdNode.FillSlots | chaining.py:94-101 | one new slot per found recipe, in order, each running that recipe's production for the dependency at its rate with this node as parent, and `Expanded` |
| Chaining.ProdNode.AddSlot | chaining.py:95-101 | one turn of that loop: the slot for the next found recipe is appended, and every slot keeps running and expanded |
| Chaining.ProdNode.SortSlots | chaining.py:103 | after the sort the node is the `AltFor` of the found recipes: their order is the found recipes sorted by base rate, fastest first |
| Chaining.ProdNode.MakeSlot | chaining.py:95-99 | the slot runs the recipe's production for the dependency at its rate with this node as parent, and is `Expanded`: resolved at the next level below the maximum, childless at it |
| Chaining.ProductionTree.constructor | chaining.py:114-115 | the root holds the recipe's production of the target at the target rate, with no parent |
| Chaining.ProductionTree.Build | chaining.py:117-118 | a root recipe not producing the target raises; otherwise the root is `Resolved` from level 0 with maximum `max_depth`, so a slot made by a node resolved at level `l` is itself resolved at `l + 1` when `l < max_depth`, and has no children when `l = max_depth` |
| Cli.GenerateId | cli.py:15-16 | each character is lower-cased and each space becomes `_` |
| Cli.GenerateIdClean | cli.py:15-16 | a generated id holds no space and no upper-case letter |
| Cli.GenerateIdIdempotent | cli.py:15-16 | generating twice is generating once |
| Cli.ParseStub | cli.py:26-34 | `@` alone gives None, `@x` the id `x`, anything else a name |
| Cli.ParseStubText | cli.py:26-34 | parsing the text of a well-formed reference gives it back |
| Cli.ParseResources | cli.py:106-125 | a list of `2k` items gives its `k` pairs in order, an odd list gives `[]`, and an unparsable count raises ValueError |
| Cli.SplitJoin | cli.py:138 | joining the pieces of `split(':')` gives the string back |
| Cli.CycleSeconds | cli.py:138-151 | ValueError iff one of the last three pieces is not a number |
| Cli.CycleSecondsIgnoresExtra | cli.py:142-150 | pieces before the last three are never read |
| Cli.ParseCycleTime | cli.py:138-151 | the loop reads seconds, minutes and hours from the right, missing ones 0, giving `3600 h + 60 m + s` seconds |
| Cli.RecipeIdFor | cli.py:130-132 | an explicit non-blank id is kept, otherwise the id is generated from the name |
| Cli.ResourceIdFor | cli.py:74-76 | a nonempty id is kept, otherwise the id is generated from the name |
| Cli.DefaultIdNotBlank | cli.py:130-132 | a recipe's id is never blank when its name has a non-space character |
| Cli.BlankIdsDiffer | cli.py:75-76 | a blank id is replaced for a recipe but kept for a resource |
| Cli.Cli.GetCommand | cli.py:244-248 | the first command answering to the name, None iff none does |
| Sorting.SortDescPermutes | chaining.py:56 | the sort is a permutation |
| Sorting.SortDescSorted | chaining.py:56 | the sort leaves keys non-increasing |
| Sorting.SortDescMap | chaining.py:56 | sorting slots by base rate and sorting their recipes by the same rate agree |
| Text.Lower | chaining.py:27 | each ASCII capital becomes its small letter; nothing else changes |
| Text.LowerIdempotent | cli.py:16 | lower-casing twice is lower-casing once |

## Left out

- The user interface (`planner_ui/*`), `main.py` and `config.py`.
- `load_repository` and `save_repository`: file and JSON I/O. Only the dict-to-entity step is modelled, with the dicts as datatypes.
- `Cli.loop`, the argparse set-up, and the `execute` bodies beyond the helpers: interactive I/O and printing.
- A `prod_spec` of None reaching `.name` (cli.py:163): the model stops at the parsed pair.
- Floating point: quantities, rates and scales are exact reals. Float formatting, `__str__` and `str_for_rpm` are display text and are not modelled.
- `float(str)`: a parameter function, with None for ValueError.
- `timedelta`: a cycle time is a real number of seconds. `ParseCycleTime` ignores timedelta's microsecond rounding.
- Graph conversion and multi-node scale propagation (`ProductionGraph`, `convert_to_graph`, `update_scales`): they are called from the UI but not defined in `chaining.py`.
- `chaining.py:4` imports `Production` from `data.py`, which defines no such name. The class is `TargetedProduction`.
  - The sort key `Production.get_base_rpm` (chaining.py:56) is modelled as the slot's `production.base_rpm`, descending, with Python's stable sort. As written the sort would fail anyway: `get_base_rpm` (data.py:176-177) reads `self.base_rpm`, and a `ProdNode` slot has no such attribute, so `list.sort`, which calls the key on every element, would raise AttributeError for any alternatives node with a slot.
- `AltNode.active_slot` is never changed by the source, so it stays 0 in every node the tree builder makes.
- `EndNode.__iter__` and `ProdNode.__iter__` are not modelled. An `EndNode` has no children field. A `ProdNode` iterates its `children` field.
- `Recipe.__copy__`: recipes are values, so a copy is the recipe itself. The sharing of quantity objects it causes is stated by `Quantities.ResourceQuantities.Copy`.
- Python object identity versus structural equality: `Resource` and `Recipe` are compared as values, where the source compares objects.
- `str.lower` and `str.strip` are modelled on ASCII only: `Text.Lower` changes only `A`-`Z`; `Cli.Blank` counts space, the control characters 0x09-0x0D (tab, newline, vertical tab, form feed, carriage return) and the separators 0x1C-0x1F.
- Quantities.ResourceQuantities.constructor: requires the listed objects to be pairwise distinct. A list naming the same object twice would double its quantity in place, and that case is not modelled.
- Recipes.Production, Recipes.ScaleFactorForProduct and Recipes.ProductionAsWritten require a nonzero cycle time and a nonzero quantity of the product, because the source divides by both.
- Chaining.ProdNode.ResolveChildren and Chaining.ProductionTree.Build:
  - They require every catalog recipe to have a nonzero cycle time and nonzero product quantities (`CatalogProducible`), because `production` divides by them.
- Chaining.ProductionTree.constructor requires the root recipe to have a nonzero cycle time and a nonzero quantity of the target, for the same reason.
- Chaining.ProdNode.MakeSlot, Chaining.ProductionTree.constructor and Chaining.ProdNode.ResolveDependency: the tree is built from the corrected halves of the two "## Findings" rows, not from the code as written. Each node stores `Recipes.Production` (byproducts scaled by `1/q`) where chaining.py:95 and 115 store the as-written `production` (byproducts scaled by `q`, data.py:202). The producing recipes are found with `Repository.Producing` where chaining.py:89 calls `find_recipes_by_product`, which as written raises AttributeError for any non-empty catalog (repository.py:77). The tree's shape does not depend on the first choice: it reads only each production's resources and base rate, which both versions share.
- Repository.RecipeBuilder.Build: recipes are values, so the aliasing `build` causes is not captured. `build` passes the builder's own `ResourceQuantity` objects, and the `ResourceQuantities` constructor adds later duplicates into the first object in place (data.py:75, repository.py:143, 151, 159). With a repeated id, a second `build()` therefore starts from already-increased quantities and yields larger ones, and it also changes the quantities of the recipe the first `build()` returned. The model gives the same recipe on every call.
- Repository.RecipeBuilder.AddResource and Repository.RecipeBuilder.AddProduct: the string case stores a marker rather than the string itself. Only the effect that `build` then fails is modelled.

## Findings

| source | as written | input that shows it | evidently intended | confidence | as-written member | corrected member |
|---|---|---|---|---|---|---|
| data.py:202 | byproducts of `production(p)` are scaled by `q`, the product's quantity | a 60 s recipe making 2 A and 1 B: at A's base rate of 2 per minute, `for_rpm` reports 4 B per minute while the recipe makes 1 | byproducts scaled by `1/q`, like the resources on data.py:204, so that `for_rpm(base_rpm)` matches `scaled(1)` | high, not executed | Recipes.ProductionAsWrittenOverstatesByproducts | Recipes.ProductionAtBaseRpm |
| repository.py:77 | `recipe.products.get(product.id)` on a `ResourceQuantities`, which has no `get` method | a catalog holding one recipe, so the loop body runs once | the membership test `product.id in recipe.products` | high, not executed | Repository.FindRecipesByProductAsWrittenFails | Repository.RecipeRepository.FindRecipesByProduct |
