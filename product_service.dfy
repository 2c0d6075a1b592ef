/**
 * The in-memory product store (Services/ProductService.cs): a list of
 * products with its own id allocation (largest id plus one, or 1 when the
 * list is empty), lookup of the first product with an id, in-place update of
 * the editable fields and removal of the first match.  Products are values
 * here; see README for the aliasing this leaves out.
 */
module ProductServices {
  import opened Base
  import opened Models

  /** Some product in `s` carries `id`. */
  predicate HasId(s: seq<Product>, id: int) {
    exists k :: 0 <= k < |s| && s[k].id == id
  }

  /** No two products of `s` share an id. */
  predicate DistinctIds(s: seq<Product>) {
    forall i, j :: 0 <= i < j < |s| ==> s[i].id != s[j].id
  }

  /** Every id in `s` is at least 1, as every id `Add` allocates is. */
  predicate IdsPositive(s: seq<Product>) {
    forall k :: 0 <= k < |s| ==> s[k].id >= 1
  }

  /** Every id in `s` is below `bound`. */
  predicate IdsBelow(s: seq<Product>, bound: int) {
    forall k :: 0 <= k < |s| ==> s[k].id < bound
  }

  /** The position `FirstOrDefault(p => p.Id == id)` stops at, if any. */
  function IndexOfId(s: seq<Product>, id: int): (r: Option<nat>)
    ensures r.None? <==> !HasId(s, id)
    ensures r.Some? ==> IsFirst(s, (p: Product) => p.id == id, r.value)
  {
    FirstIndex(s, (p: Product) => p.id == id)
  }

  /** `Max(p => p.Id)` of a non-empty list. */
  function MaxId(s: seq<Product>): (m: Int32)
    requires |s| > 0
    ensures forall k :: 0 <= k < |s| ==> s[k].id <= m
    ensures HasId(s, m)
  {
    if |s| == 1 then s[0].id
    else
      var rest := MaxId(s[1..]);
      if s[0].id >= rest then s[0].id else rest
  }

  /**
   * The id `Add` allocates: one more than the largest id, or 1 for an empty
   * list.  It exceeds every id present and, for a non-empty list, directly
   * follows one of them (so it is the maximum plus one).
   */
  function NextId(s: seq<Product>): (r: Int32)
    requires IdsBelow(s, MaxInt32)
    ensures forall k :: 0 <= k < |s| ==> s[k].id < r
    ensures |s| == 0 ==> r == 1
    ensures |s| > 0 ==> HasId(s, r - 1)
  {
    if |s| == 0 then 1 else MaxId(s) + 1
  }

  /** `s` without its element at position `k`, the others kept in order. */
  function RemoveAt(s: seq<Product>, k: nat): (r: seq<Product>)
    requires k < |s|
    ensures |r| == |s| - 1
    ensures forall i :: 0 <= i < k ==> r[i] == s[i]
    ensures forall i :: k <= i < |r| ==> r[i] == s[i + 1]
  {
    s[..k] + s[k + 1..]
  }

  /** Appending the product with the allocated id keeps ids distinct. */
  lemma AddKeepsIdsDistinct(s: seq<Product>, p: Product)
    requires DistinctIds(s) && IdsBelow(s, MaxInt32)
    ensures DistinctIds(s + [p.(id := NextId(s))])
  {
  }

  /** Removing one element keeps ids distinct. */
  lemma RemoveAtKeepsIdsDistinct(s: seq<Product>, k: nat)
    requires k < |s| && DistinctIds(s)
    ensures DistinctIds(RemoveAt(s, k))
  {
  }

  /**
   * Allocation depends only on the current maximum, so deleting the product
   * with the largest id `m` lets the next `Add` hand out an id no larger than
   * `m`; it hands out `m` itself exactly when `m - 1` is still in use, or the
   * list became empty and `m` was 1.
   */
  lemma NextIdAfterDeletingMax(s: seq<Product>, k: nat)
    requires DistinctIds(s) && IdsPositive(s) && IdsBelow(s, MaxInt32)
    requires k < |s| && s[k].id == MaxId(s)
    ensures IdsBelow(RemoveAt(s, k), MaxInt32)
    ensures NextId(RemoveAt(s, k)) <= s[k].id
    ensures (NextId(RemoveAt(s, k)) == s[k].id)
            <==> (HasId(RemoveAt(s, k), s[k].id - 1) || (|s| == 1 && s[k].id == 1))
  {
  }

  /**
   * While nothing has been deleted, `Add` numbers products 1, 2, 3, ...: if
   * the ids are the positions plus one, the next id is the length plus one.
   */
  lemma ConsecutiveIdsNext(s: seq<Product>)
    requires forall k :: 0 <= k < |s| ==> s[k].id == k + 1
    requires |s| < MaxInt32
    ensures NextId(s) == |s| + 1
  {
    if |s| > 0 {
      assert s[|s| - 1].id == |s|;
    }
  }

  /**
   * `Add` keeps ids consecutive: appending under the allocated id to a list
   * numbered 1..n gives a list numbered 1..n+1.  Starting from the empty list,
   * a history of `Add` calls therefore numbers products 1, 2, 3, ...
   */
  lemma AddKeepsConsecutive(s: seq<Product>, p: Product)
    requires forall k :: 0 <= k < |s| ==> s[k].id == k + 1
    requires |s| < MaxInt32
    ensures IdsBelow(s, MaxInt32)
    ensures forall k :: 0 <= k < |s| + 1 ==> (s + [p.(id := NextId(s))])[k].id == k + 1
  {
    ConsecutiveIdsNext(s);
  }

  /** The service object: the list it owns, and its CRUD operations. */
  class ProductService {
    var products: seq<Product>

    /**
     * What every reachable state satisfies: ids are distinct and positive
     * (allocation never hands out an id below 1, update keeps ids, removal
     * only drops them).
     */
    ghost predicate Valid()
      reads this
    {
      DistinctIds(products) && IdsPositive(products)
    }

    constructor()
      ensures Valid() && products == []
    {
      products := [];
    }

    /** Every stored product, in list order; nothing changes. */
    function GetAll(): (all: seq<Product>)
      reads this
      ensures |all| == |products|
      ensures forall k :: 0 <= k < |all| ==> all[k] == products[k]
    {
      products
    }

    /** The first product whose id matches, or none when no product has it. */
    function GetById(id: Int32): (r: Option<Product>)
      reads this
      ensures r.None? <==> !HasId(products, id)
      ensures r.Some? ==> r.value.id == id
      ensures r.Some? ==> exists k :: IsFirst(products, (p: Product) => p.id == id, k) && r.value == products[k]
    {
      match IndexOfId(products, id)
      case None => None
      case Some(k) => Some(products[k])
    }

    /**
     * Stores `product` at the end under a newly allocated id (whatever id the
     * caller supplied is overwritten) and returns it as stored.  No validation
     * takes place.
     */
    method Add(product: Product) returns (stored: Product)
      requires Valid()
      requires IdsBelow(products, MaxInt32)
      modifies this
      ensures Valid()
      ensures stored == product.(id := NextId(old(products)))
      ensures products == old(products) + [stored]
    {
      AddKeepsIdsDistinct(products, product);
      stored := product.(id := NextId(products));
      products := products + [stored];
    }

    /**
     * Copies name, price and stock of `updated` onto the first product with
     * `id`; false, and nothing changes, when no product has it.
     */
    method Update(id: Int32, updated: Product) returns (found: bool)
      requires Valid()
      modifies this
      ensures Valid()
      ensures found == HasId(old(products), id)
      ensures !found ==> products == old(products)
      ensures found ==> var k := IndexOfId(old(products), id).value;
                        products == old(products)[k := WithEditableFields(old(products)[k], updated)]
    {
      var r := IndexOfId(products, id);
      if r.None? {
        return false;
      }
      var k := r.value;
      products := products[k := WithEditableFields(products[k], updated)];
      return true;
    }

    /**
     * Removes the first product with `id`, keeping the others in order;
     * false, and nothing changes, when no product has it.
     */
    method Delete(id: Int32) returns (found: bool)
      requires Valid()
      modifies this
      ensures Valid()
      ensures found == HasId(old(products), id)
      ensures !found ==> products == old(products)
      ensures found ==> products == RemoveAt(old(products), IndexOfId(old(products), id).value)
    {
      var r := IndexOfId(products, id);
      if r.None? {
        return false;
      }
      RemoveAtKeepsIdsDistinct(products, r.value);
      products := RemoveAt(products, r.value);
      return true;
    }
  }
}
