/**
 * Resources and quantities of them (data.py:21-131): the `Resource` and
 * `ResourceQuantity` values, and `ResourceQuantities`, the insertion-ordered
 * map from resource id to a mutable `ResourceQuantity` object.
 */
module Quantities {
  import opened Wrappers

  /** A catalog resource; `isRaw` resources are extracted, never produced. */
  datatype Resource = Resource(name: string, id: string, isRaw: bool)

  /** The value a `ResourceQuantity` object holds at one moment. */
  datatype Amount = Amount(resource: Resource, quantity: real)

  /** `ResourceQuantity.scale`: a new quantity of the same resource. */
  function Scale(a: Amount, fac: real): Amount
  {
    Amount(a.resource, a.quantity * fac)
  }

  /** `[q.scale(fac) for q in s]`. */
  function ScaleAll(s: seq<Amount>, fac: real): (r: seq<Amount>)
    ensures |r| == |s|
    ensures forall i | 0 <= i < |s| :: r[i].resource == s[i].resource
  {
    if s == [] then [] else [Scale(s[0], fac)] + ScaleAll(s[1..], fac)
  }

  /** Each entry of `ScaleAll(s, fac)` is the matching entry of `s`, scaled. */
  lemma {:induction false} ScaleAllAt(s: seq<Amount>, fac: real)
    ensures forall i | 0 <= i < |s| :: ScaleAll(s, fac)[i] == Scale(s[i], fac)
  {
    if s != [] {
      ScaleAllAt(s[1..], fac);
    }
  }

  /** Scaling twice is scaling once by the product of the factors. */
  lemma ScaleAllCompose(s: seq<Amount>, f: real, g: real)
    ensures ScaleAll(ScaleAll(s, f), g) == ScaleAll(s, f * g)
  {
    ScaleAllAt(s, f);
    ScaleAllAt(ScaleAll(s, f), g);
    ScaleAllAt(s, f * g);
    forall i | 0 <= i < |s| ensures ScaleAll(ScaleAll(s, f), g)[i] == ScaleAll(s, f * g)[i] {
      ScaleCompose(s[i], f, g);
    }
  }

  /** `ScaleAllCompose` with the product of the factors given as `h`. */
  lemma ScaleAllComposeTo(s: seq<Amount>, f: real, g: real, h: real)
    requires f * g == h
    ensures ScaleAll(ScaleAll(s, f), g) == ScaleAll(s, h)
  {
    ScaleAllCompose(s, f, g);
  }

  lemma ScaleCompose(a: Amount, f: real, g: real)
    ensures Scale(Scale(a, f), g) == Scale(a, f * g)
  {
    MulAssoc(a.quantity, f, g);
  }

  lemma MulAssoc(x: real, y: real, z: real)
    ensures x * y * z == x * (y * z)
  {
  }

  /** The ids of `s`, in order: the keys of a `ResourceQuantities`. */
  function IdSeq(s: seq<Amount>): (r: seq<string>)
    ensures |r| == |s| && forall i | 0 <= i < |s| :: r[i] == s[i].resource.id
  {
    if s == [] then [] else [s[0].resource.id] + IdSeq(s[1..])
  }

  predicate HasId(s: seq<Amount>, id: string)
  {
    exists i | 0 <= i < |s| :: s[i].resource.id == id
  }

  ghost predicate DistinctIds(s: seq<Amount>)
  {
    forall i, j | 0 <= i < j < |s| :: s[i].resource.id != s[j].resource.id
  }

  /** The index of the first entry for `id`, or -1. */
  function Find(s: seq<Amount>, id: string): (k: int)
    ensures -1 <= k < |s|
    ensures k >= 0 ==> s[k].resource.id == id && forall j | 0 <= j < k :: s[j].resource.id != id
    ensures k < 0 ==> forall j | 0 <= j < |s| :: s[j].resource.id != id
  {
    if s == [] then -1
    else if s[0].resource.id == id then 0
    else
      var k := Find(s[1..], id);
      if k < 0 then -1 else k + 1
  }

  /** `m.get(id)` on the values of a `ResourceQuantities`. */
  function Lookup(s: seq<Amount>, id: string): Option<Amount>
  {
    var k := Find(s, id);
    if k < 0 then None else Some(s[k])
  }

  /** Scaling keeps every entry's position: the first entry for an id stays first. */
  lemma FindScaleAll(s: seq<Amount>, fac: real, id: string)
    ensures Find(ScaleAll(s, fac), id) == Find(s, id)
  {
  }

  /** `ResourceQuantities.add` on values: add to the entry for the id, or append. */
  function Insert(s: seq<Amount>, a: Amount): seq<Amount>
  {
    var k := Find(s, a.resource.id);
    if k < 0 then s + [a]
    else s[k := Amount(s[k].resource, s[k].quantity + a.quantity)]
  }

  /** `Insert` of an id already present adds to the first entry for it only. */
  lemma InsertPresent(s: seq<Amount>, a: Amount)
    requires Find(s, a.resource.id) >= 0
    ensures var k := Find(s, a.resource.id);
      Insert(s, a) == s[k := Amount(s[k].resource, s[k].quantity + a.quantity)]
  {
  }

  /** `ResourceQuantities(list)` on values: every entry inserted in list order. */
  function Merge(s: seq<Amount>): seq<Amount>
  {
    if s == [] then [] else Insert(Merge(s[..|s| - 1]), s[|s| - 1])
  }

  /** The total quantity `s` lists for `id`. */
  function SumQty(s: seq<Amount>, id: string): real
  {
    if s == [] then 0.0
    else SumQty(s[..|s| - 1], id) + (if s[|s| - 1].resource.id == id then s[|s| - 1].quantity else 0.0)
  }

  /**
   * Adding an id already present increases that entry by the added amount and
   * keeps the count, the order and every other entry; a new id is appended.
   */
  lemma InsertEffect(s: seq<Amount>, a: Amount)
    requires DistinctIds(s)
    ensures DistinctIds(Insert(s, a))
    ensures |Insert(s, a)| == if HasId(s, a.resource.id) then |s| else |s| + 1
    ensures forall i | 0 <= i < |s| :: Insert(s, a)[i].resource == s[i].resource
    ensures forall i | 0 <= i < |s| ::
      Insert(s, a)[i].quantity == s[i].quantity + (if s[i].resource.id == a.resource.id then a.quantity else 0.0)
    ensures !HasId(s, a.resource.id) ==> Insert(s, a)[|s|] == a
  {
  }

  lemma {:induction false} MergeDistinct(s: seq<Amount>)
    ensures DistinctIds(Merge(s))
    ensures forall id :: HasId(Merge(s), id) <==> HasId(s, id)
  {
    if s != [] {
      var p := s[..|s| - 1];
      MergeDistinct(p);
      InsertEffect(Merge(p), s[|s| - 1]);
      forall id ensures HasId(Merge(s), id) <==> HasId(s, id) {
        if HasId(s, id) && !HasId(p, id) {
          assert s[|s| - 1].resource.id == id;
        }
        if HasId(p, id) {
          var i :| 0 <= i < |p| && p[i].resource.id == id;
          assert s[i] == p[i];
        }
        if HasId(Merge(s), id) && !HasId(Merge(p), id) {
          var i :| 0 <= i < |Merge(s)| && Merge(s)[i].resource.id == id;
          assert i == |Merge(p)|;
        }
      }
    }
  }

  /** Merging keeps one entry per id whose quantity is the sum over the list. */
  lemma {:induction false} MergeSums(s: seq<Amount>, id: string)
    requires HasId(s, id)
    ensures Lookup(Merge(s), id).Some?
    ensures Lookup(Merge(s), id).value.quantity == SumQty(s, id)
    ensures Lookup(Merge(s), id).value.resource == s[Find(s, id)].resource
  {
    var p := s[..|s| - 1];
    var a := s[|s| - 1];
    MergeDistinct(p);
    InsertEffect(Merge(p), a);
    if HasId(p, id) {
      MergeSums(p, id);
      assert Find(s, id) == Find(p, id) by {
        var k := Find(p, id);
        assert s[k] == p[k];
        forall j | 0 <= j < k ensures s[j].resource.id != id { assert s[j] == p[j]; }
      }
      var k := Find(Merge(p), id);
      assert Merge(s)[k].resource.id == id;
    } else {
      assert a.resource.id == id;
      assert SumQty(p, id) == 0.0 by { SumQtyAbsent(p, id); }
      assert !HasId(Merge(p), id);
      assert Merge(s)[|Merge(p)|] == a;
      assert Find(Merge(s), id) == |Merge(p)|;
      assert Find(s, id) == |p| by {
        forall j | 0 <= j < |p| ensures s[j].resource.id != id { assert s[j] == p[j]; }
      }
    }
  }

  lemma {:induction false} SumQtyAbsent(s: seq<Amount>, id: string)
    requires !HasId(s, id)
    ensures SumQty(s, id) == 0.0
  {
    if s != [] {
      var p := s[..|s| - 1];
      forall i | 0 <= i < |p| ensures p[i].resource.id != id {
        assert p[i] == s[i];
      }
      SumQtyAbsent(p, id);
    }
  }

  /** The distinct ids of `ids`, each at the place where it first occurs. */
  function FirstOccurrences(ids: seq<string>): seq<string>
  {
    if ids == [] then []
    else
      var p := FirstOccurrences(ids[..|ids| - 1]);
      if ids[|ids| - 1] in p then p else p + [ids[|ids| - 1]]
  }

  /** Merging keeps each id at the place where the list first names it. */
  lemma {:induction false} MergeOrder(s: seq<Amount>)
    ensures IdSeq(Merge(s)) == FirstOccurrences(IdSeq(s))
  {
    if s != [] {
      var p := s[..|s| - 1];
      var a := s[|s| - 1];
      var m := Merge(p);
      MergeOrder(p);
      MergeDistinct(p);
      InsertEffect(m, a);
      var ids := IdSeq(s);
      assert ids[..|s| - 1] == IdSeq(p);
      assert FirstOccurrences(ids) ==
        if ids[|s| - 1] in IdSeq(m) then IdSeq(m) else IdSeq(m) + [ids[|s| - 1]];
      if HasId(m, a.resource.id) {
        assert a.resource.id in IdSeq(m);
        assert IdSeq(Insert(m, a)) == IdSeq(m);
      } else {
        assert a.resource.id !in IdSeq(m);
        assert IdSeq(Insert(m, a)) == IdSeq(m) + [a.resource.id];
      }
    }
  }

  /** A list with distinct ids is its own merge. */
  lemma {:induction false} MergeOfDistinct(s: seq<Amount>)
    requires DistinctIds(s)
    ensures Merge(s) == s
  {
    if s != [] {
      var p := s[..|s| - 1];
      MergeOfDistinct(p);
      assert !HasId(p, s[|s| - 1].resource.id);
      assert p + [s[|s| - 1]] == s;
    }
  }

  /**
   * `ResourceQuantities.is_equal` on values: the same size, and every entry
   * of `a` found under its id in `b` with the same resource and quantity.
   */
  predicate SameQuantities(a: seq<Amount>, b: seq<Amount>)
  {
    |a| == |b| && forall i | 0 <= i < |a| :: Lookup(b, a[i].resource.id) == Some(a[i])
  }

  /** For maps with distinct ids: equal iff the same id set and equal entries per id. */
  lemma SameQuantitiesMeaning(a: seq<Amount>, b: seq<Amount>)
    requires DistinctIds(a) && DistinctIds(b)
    ensures SameQuantities(a, b) <==>
      (forall id :: HasId(a, id) <==> HasId(b, id)) &&
      (forall id | HasId(a, id) :: Lookup(a, id) == Lookup(b, id))
  {
    if SameQuantities(a, b) {
      SameQuantitiesSameIds(a, b);
      SameQuantitiesSameLookups(a, b);
    }
    if (forall id :: HasId(a, id) <==> HasId(b, id)) &&
       (forall id | HasId(a, id) :: Lookup(a, id) == Lookup(b, id))
    {
      SameIdsSameQuantities(a, b);
    }
  }

  /** The keys of a `ResourceQuantities`, as a set. */
  function IdSet(s: seq<Amount>): (r: set<string>)
    ensures forall id :: id in r <==> HasId(s, id)
  {
    if s == [] then {}
    else
      var p := s[..|s| - 1];
      assert forall i | 0 <= i < |p| :: p[i] == s[i];
      IdSet(p) + {s[|s| - 1].resource.id}
  }

  lemma SameQuantitiesSameLookups(a: seq<Amount>, b: seq<Amount>)
    requires DistinctIds(a) && SameQuantities(a, b)
    ensures forall id | HasId(a, id) :: Lookup(a, id) == Lookup(b, id)
  {
    forall id | HasId(a, id) ensures Lookup(a, id) == Lookup(b, id) {
      var k := Find(a, id);
      assert Lookup(b, a[k].resource.id) == Some(a[k]);
    }
  }

  lemma SameQuantitiesSameIds(a: seq<Amount>, b: seq<Amount>)
    requires DistinctIds(a) && DistinctIds(b) && SameQuantities(a, b)
    ensures forall id :: HasId(a, id) <==> HasId(b, id)
  {
    var ia, ib := IdSet(a), IdSet(b);
    forall x | x in ia ensures x in ib {
      var i :| 0 <= i < |a| && a[i].resource.id == x;
      assert Lookup(b, a[i].resource.id) == Some(a[i]);
    }
    DistinctCard(a);
    DistinctCard(b);
    SubsetSameSize(ia, ib);
  }

  lemma SubsetSameSize(a: set<string>, b: set<string>)
    requires a <= b && |a| == |b|
    ensures a == b
  {
    assert b == a + (b - a);
    assert |b - a| == 0;
  }

  lemma SameIdsSameQuantities(a: seq<Amount>, b: seq<Amount>)
    requires DistinctIds(a) && DistinctIds(b)
    requires forall id :: HasId(a, id) <==> HasId(b, id)
    requires forall id | HasId(a, id) :: Lookup(a, id) == Lookup(b, id)
    ensures SameQuantities(a, b)
  {
    forall i | 0 <= i < |a| ensures Lookup(b, a[i].resource.id) == Some(a[i]) {
      var id := a[i].resource.id;
      assert HasId(a, id);
      assert Find(a, id) == i;
    }
    assert IdSet(a) == IdSet(b);
    DistinctCard(a);
    DistinctCard(b);
  }

  lemma {:induction false} DistinctCard(s: seq<Amount>)
    requires DistinctIds(s)
    ensures |IdSet(s)| == |s|
  {
    if s != [] {
      var p := s[..|s| - 1];
      DistinctCard(p);
      forall i | 0 <= i < |p| ensures p[i].resource.id != s[|s| - 1].resource.id {
        assert p[i] == s[i];
      }
      assert s[|s| - 1].resource.id !in IdSet(p);
    }
  }

  /** In a list with distinct ids, no entry before `i` has the id of entry `i`. */
  lemma NewIdAfterPrefix(s: seq<Amount>, i: int)
    requires DistinctIds(s) && 0 <= i < |s|
    ensures !HasId(s[..i], s[i].resource.id)
  {
  }

  lemma SeqUpdated<T>(s: seq<T>, t: seq<T>, k: int, v: T)
    requires 0 <= k < |s| == |t| && t[k] == v
    requires forall i | 0 <= i < |s| && i != k :: t[i] == s[i]
    ensures t == s[k := v]
  {
  }

  lemma SeqAppended<T>(s: seq<T>, t: seq<T>, v: T)
    requires |t| == |s| + 1 && t[|s|] == v
    requires forall i | 0 <= i < |s| :: t[i] == s[i]
    ensures t == s + [v]
  {
  }

  lemma PrefixSnoc<T>(s: seq<T>, i: int)
    requires 0 <= i < |s|
    ensures s[..i + 1] == s[..i] + [s[i]]
  {
  }

  /** `Merge` of one more amount. */
  lemma MergeSnoc(s: seq<Amount>, i: int)
    requires 0 <= i < |s|
    ensures Merge(s[..i + 1]) == Insert(Merge(s[..i]), s[i])
  {
    assert s[..i + 1][..i] == s[..i];
  }

  /** No two of the objects hold the same resource id. */
  ghost predicate DistinctObjectIds(objs: seq<ResourceQuantity>)
  {
    forall i, j | 0 <= i < j < |objs| :: objs[i].resource.id != objs[j].resource.id
  }

  lemma DistinctObjectIdsSnoc(objs: seq<ResourceQuantity>, x: ResourceQuantity)
    requires DistinctObjectIds(objs)
    requires forall j | 0 <= j < |objs| :: objs[j].resource.id != x.resource.id
    ensures DistinctObjectIds(objs + [x])
  {
  }

  /** A mutable quantity of one resource (data.py:41-65). */
  class ResourceQuantity {
    const resource: Resource
    var quantity: real

    constructor (resource: Resource, quantity: real)
      ensures this.resource == resource && this.quantity == quantity
    {
      this.resource := resource;
      this.quantity := quantity;
    }

    function Value(): Amount
      reads this
    {
      Amount(resource, quantity)
    }
  }

  /** The values a list of quantity objects holds right now. */
  function Values(list: seq<ResourceQuantity>): (r: seq<Amount>)
    reads set o | o in list
    ensures |r| == |list| && forall i | 0 <= i < |list| :: r[i] == list[i].Value()
  {
    if list == [] then [] else [list[0].Value()] + Values(list[1..])
  }

  /** The index of the object stored for `id` in `objs`, or -1. */
  function FindObject(objs: seq<ResourceQuantity>, id: string): (k: int)
    ensures -1 <= k < |objs|
    ensures k >= 0 ==> objs[k].resource.id == id
    ensures k < 0 ==> forall j | 0 <= j < |objs| :: objs[j].resource.id != id
  {
    if objs == [] then -1
    else if objs[|objs| - 1].resource.id == id then |objs| - 1
    else FindObject(objs[..|objs| - 1], id)
  }

  /**
   * The objects `ResourceQuantities(list)` stores: each one listed before any
   * other object with its id, in list order.
   */
  function FirstObjects(list: seq<ResourceQuantity>): seq<ResourceQuantity>
  {
    if list == [] then []
    else
      var p := FirstObjects(list[..|list| - 1]);
      var x := list[|list| - 1];
      if FindObject(p, x.resource.id) >= 0 then p else p + [x]
  }

  /** `FirstObjects` of one more listed object. */
  lemma FirstObjectsSnoc(list: seq<ResourceQuantity>, i: int)
    requires 0 <= i < |list|
    ensures FirstObjects(list[..i + 1]) ==
      var p := FirstObjects(list[..i]);
      if FindObject(p, list[i].resource.id) >= 0 then p else p + [list[i]]
  {
    assert list[..i + 1][..i] == list[..i];
  }

  /** Whether some object of `list` holds `id`. */
  predicate ListsId(list: seq<ResourceQuantity>, id: string)
  {
    exists i | 0 <= i < |list| :: list[i].resource.id == id
  }

  /** Every stored object is a listed one. */
  lemma {:induction false} FirstObjectsListed(list: seq<ResourceQuantity>)
    ensures forall o | o in FirstObjects(list) :: o in list
  {
    if list != [] {
      var p := list[..|list| - 1];
      FirstObjectsListed(p);
      assert forall o | o in p :: o in list;
    }
  }

  /** Every listed id is stored. */
  lemma {:induction false} FirstObjectsIds(list: seq<ResourceQuantity>)
    ensures forall id :: FindObject(FirstObjects(list), id) >= 0 <==> ListsId(list, id)
  {
    if list != [] {
      var p := list[..|list| - 1];
      var x := list[|list| - 1];
      var f := FirstObjects(p);
      FirstObjectsIds(p);
      forall id ensures FindObject(FirstObjects(list), id) >= 0 <==> ListsId(list, id) {
        if ListsId(p, id) {
          var i :| 0 <= i < |p| && p[i].resource.id == id;
          assert list[i] == p[i];
        }
        if ListsId(list, id) && !ListsId(p, id) {
          assert x.resource.id == id;
        }
        if FindObject(FirstObjects(list), id) >= 0 && FindObject(f, id) < 0 {
          assert FirstObjects(list) == f + [x];
        }
      }
    }
  }

  /** An object is stored exactly when no earlier object in the list has its id. */
  lemma {:induction false} FirstObjectsMeaning(list: seq<ResourceQuantity>)
    requires forall i, j | 0 <= i < j < |list| :: list[i] != list[j]
    ensures forall i | 0 <= i < |list| ::
      list[i] in FirstObjects(list) <==> forall j | 0 <= j < i :: list[j].resource.id != list[i].resource.id
  {
    if list != [] {
      var p := list[..|list| - 1];
      var x := list[|list| - 1];
      var f := FirstObjects(p);
      FirstObjectsMeaning(p);
      FirstObjectsListed(p);
      FirstObjectsIds(p);
      assert x !in f;
      forall i | 0 <= i < |list|
        ensures list[i] in FirstObjects(list) <==>
          forall j | 0 <= j < i :: list[j].resource.id != list[i].resource.id
      {
        if i < |p| {
          assert list[i] == p[i] && list[i] != x;
          assert forall j | 0 <= j < i :: list[j] == p[j];
        } else {
          assert forall j | 0 <= j < i :: list[j] == p[j];
          if FindObject(f, x.resource.id) < 0 {
            assert !ListsId(p, x.resource.id);
          }
        }
      }
    }
  }

  /**
   * A dict from resource id to the `ResourceQuantity` object stored for it.
   * `entries` are the dict's values in insertion order; the key of each is
   * its resource's id.
   */
  class ResourceQuantities {
    var entries: seq<ResourceQuantity>

    ghost predicate Valid()
      reads this
    {
      DistinctObjectIds(entries)
    }

    /** The entries' values in insertion order. */
    function Items(): (r: seq<Amount>)
      reads this, set o | o in entries
      ensures |r| == |entries|
      ensures forall i | 0 <= i < |entries| :: r[i] == entries[i].Value()
    {
      Values(entries)
    }

    /** Distinct stored ids mean distinct ids among the items. */
    lemma ItemsDistinct()
      requires Valid()
      ensures DistinctIds(Items())
    {
    }

    /** `__contains__`. */
    predicate Contains(id: string)
      reads this
    {
      FindObject(entries, id) >= 0
    }

    /** `__len__`: the number of distinct ids. */
    function Len(): (n: nat)
      requires Valid()
      reads this, set o | o in entries
      ensures n == |Items()|
      ensures n == |IdSet(Items())|
    {
      DistinctCard(Items());
      |entries|
    }

    /**
     * `ResourceQuantities(list)`: the first object listed for an id is stored
     * and absorbs, in place, the quantities of the later ones for that id.
     */
    constructor (list: seq<ResourceQuantity>)
      requires forall i, j | 0 <= i < j < |list| :: list[i] != list[j]
      modifies set o | o in list
      ensures Valid()
      ensures Items() == Merge(old(Values(list)))
      ensures forall o | o in entries :: o in list
      ensures forall id :: Contains(id) <==> ListsId(list, id)
      ensures forall i | 0 <= i < |list| ::
        list[i] in entries <==> forall j | 0 <= j < i :: list[j].resource.id != list[i].resource.id
      ensures forall i | 0 <= i < |list| && list[i] !in entries :: list[i].quantity == old(list[i].quantity)
    {
      entries := [];
      new;
      AddEach(list);
    }

    /** The loop of `__init__`: `add` of every listed object in list order. */
    method AddEach(list: seq<ResourceQuantity>)
      requires Valid() && entries == []
      requires forall i, j | 0 <= i < j < |list| :: list[i] != list[j]
      modifies this, set o | o in list
      ensures Valid()
      ensures Items() == Merge(old(Values(list)))
      ensures forall o | o in entries :: o in list
      ensures forall id :: Contains(id) <==> ListsId(list, id)
      ensures forall i | 0 <= i < |list| ::
        list[i] in entries <==> forall j | 0 <= j < i :: list[j].resource.id != list[i].resource.id
      ensures forall i | 0 <= i < |list| && list[i] !in entries :: list[i].quantity == old(list[i].quantity)
    {
      ghost var vals := Values(list);
      var i := 0;
      while i < |list|
        invariant 0 <= i <= |list|
        invariant Valid()
        invariant forall o | o in entries :: o in list
        invariant forall j | i <= j < |list| :: list[j] !in entries
        invariant forall j | 0 <= j < |list| && list[j] !in entries :: list[j].Value() == vals[j]
        invariant entries == FirstObjects(list[..i])
        invariant Items() == Merge(vals[..i])
      {
        AddNext(list, vals, i);
        i := i + 1;
      }
      assert vals[..i] == vals;
      assert list[..i] == list;
      FirstObjectsIds(list);
      FirstObjectsMeaning(list);
    }

    /** One step of `AddEach`: `add` of the object at `i`. */
    method AddNext(list: seq<ResourceQuantity>, ghost vals: seq<Amount>, i: int)
      requires 0 <= i < |list| == |vals|
      requires Valid()
      requires forall j, k | 0 <= j < k < |list| :: list[j] != list[k]
      requires forall o | o in entries :: o in list
      requires forall j | i <= j < |list| :: list[j] !in entries
      requires forall j | 0 <= j < |list| && list[j] !in entries :: list[j].Value() == vals[j]
      requires entries == FirstObjects(list[..i])
      requires Items() == Merge(vals[..i])
      modifies this, set o | o in list
      ensures Valid()
      ensures forall o | o in entries :: o in list
      ensures forall j | i + 1 <= j < |list| :: list[j] !in entries
      ensures forall j | 0 <= j < |list| && list[j] !in entries :: list[j].Value() == vals[j]
      ensures entries == FirstObjects(list[..i + 1])
      ensures Items() == Merge(vals[..i + 1])
    {
      MergeSnoc(vals, i);
      FirstObjectsSnoc(list, i);
      assert list[i].Value() == vals[i];
      ghost var e0 := entries;
      Add(list[i]);
      forall j | 0 <= j < |list| && list[j] !in entries ensures list[j].Value() == vals[j] {
        assert list[j] !in e0;
      }
    }

    /**
     * `add`: an id already present increases the stored object's quantity in
     * place (every holder of that object sees it); a new id stores `x` itself.
     */
    method Add(x: ResourceQuantity)
      requires Valid()
      modifies this, if Contains(x.resource.id) then {entries[FindObject(entries, x.resource.id)]} else {}
      ensures Valid()
      ensures Items() == Insert(old(Items()), old(x.Value()))
      ensures old(Contains(x.resource.id)) ==> entries == old(entries)
      ensures !old(Contains(x.resource.id)) ==> entries == old(entries) + [x]
    {
      var k := FindObject(entries, x.resource.id);
      if k >= 0 {
        AddTo(k, x);
      } else {
        ghost var before := Items();
        ghost var xv := x.Value();
        assert Find(before, x.resource.id) < 0;
        DistinctObjectIdsSnoc(entries, x);
        entries := entries + [x];
        SeqAppended(before, Items(), xv);
        assert Items() == Insert(before, xv);
      }
    }

    /** `add` of `x` when the object at `k` already holds its id: that object grows in place. */
    method AddTo(k: int, x: ResourceQuantity)
      requires 0 <= k < |entries| && entries[k].resource.id == x.resource.id
      requires forall i | 0 <= i < |entries| && i != k :: entries[i].resource.id != x.resource.id
      modifies entries[k]
      ensures Items() == Insert(old(Items()), old(x.Value()))
    {
      ghost var before := Items();
      ghost var xv := x.Value();
      assert xv.resource.id == x.resource.id;
      assert Find(before, x.resource.id) == k;
      var stored := entries[k];
      stored.quantity := stored.quantity + x.quantity;
      ghost var after := Items();
      forall i | 0 <= i < |entries| && i != k ensures after[i] == before[i] {
        assert entries[i] != stored;
      }
      assert after[k] == Amount(before[k].resource, before[k].quantity + xv.quantity);
      InsertPresent(before, xv);
      SeqUpdated(before, after, k, Amount(before[k].resource, before[k].quantity + xv.quantity));
    }

    /** `add(ResourceQuantity(v.resource, v.quantity))` for an id not yet present. */
    method AddCopyOf(v: Amount)
      requires Valid() && !HasId(Items(), v.resource.id)
      modifies this
      ensures Valid() && |entries| == |old(entries)| + 1
      ensures entries[..|old(entries)|] == old(entries) && fresh(entries[|old(entries)|])
      ensures Items() == old(Items()) + [v]
    {
      var qt := new ResourceQuantity(v.resource, v.quantity);
      Add(qt);
    }

    /** `__copy__`: a new map holding the very same quantity objects. */
    method Copy() returns (cp: ResourceQuantities)
      requires Valid()
      ensures fresh(cp) && cp.Valid()
      ensures cp.entries == entries
      ensures cp.Items() == Items()
    {
      cp := new ResourceQuantities([]);
      cp.entries := entries;
    }

    /** `is_equal`: same size and every entry found under its id with an equal value. */
    method IsEqual(other: ResourceQuantities) returns (r: bool)
      requires Valid() && other.Valid()
      ensures r == SameQuantities(Items(), other.Items())
    {
      ghost var mine := Items();
      ghost var theirs := other.Items();
      if |entries| != |other.entries| {
        return false;
      }
      var i := 0;
      while i < |entries|
        invariant 0 <= i <= |entries|
        invariant forall j | 0 <= j < i :: Lookup(theirs, mine[j].resource.id) == Some(mine[j])
      {
        var qt := entries[i];
        var t := FindObject(other.entries, qt.resource.id);
        if t < 0 {
          assert Find(theirs, qt.resource.id) < 0;
          return false;
        }
        assert Find(theirs, qt.resource.id) == t;
        var otherQt := other.entries[t];
        if otherQt.resource != qt.resource || otherQt.quantity != qt.quantity {
          return false;
        }
        i := i + 1;
      }
      return true;
    }

    /** `copy_shallow`: an equal map built from new quantity objects. */
    method CopyShallow() returns (copied: ResourceQuantities)
      requires Valid()
      ensures fresh(copied) && copied.Valid()
      ensures copied.Items() == Items()
      ensures forall k | 0 <= k < |copied.entries| :: fresh(copied.entries[k])
    {
      ItemsDistinct();
      copied := FreshCopies(Items());
    }
  }

  /**
   * The loop of `copy_shallow`: an empty map, then `add` of a new object
   * holding each value in turn.
   */
  method FreshCopies(items: seq<Amount>) returns (copied: ResourceQuantities)
    requires DistinctIds(items)
    ensures fresh(copied) && copied.Valid()
    ensures copied.Items() == items
    ensures forall k | 0 <= k < |copied.entries| :: fresh(copied.entries[k])
  {
    copied := new ResourceQuantities([]);
    assert |copied.entries| == |copied.Items()| == 0;
    var i := 0;
    while i < |items|
      invariant 0 <= i <= |items|
      invariant fresh(copied) && copied.Valid()
      invariant forall k | 0 <= k < |copied.entries| :: fresh(copied.entries[k])
      invariant copied.Items() == items[..i]
    {
      NewIdAfterPrefix(items, i);
      ghost var before := copied.entries;
      copied.AddCopyOf(items[i]);
      PrefixSnoc(items, i);
      i := i + 1;
    }
    assert items[..i] == items;
  }
}
