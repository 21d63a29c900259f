/** The product hook: the low-stock filter and the cached product list, kept sorted
    by name across create, update and delete. */
module Products {
  import opened Common
  import opened Ledger
  import opened NameOrder

  /** `current_quantity <= min_quantity`, where a null quantity compares as 0. */
  predicate IsLowStock(p: Product) {
    Quantity(p) <= p.minQuantity
  }

  /** `getLowStockProducts`: the products at or below their minimum, in list order. */
  function LowStockProducts(ps: seq<Product>): (r: seq<Product>)
    ensures forall p :: p in r <==> p in ps && IsLowStock(p)
  {
    Filter(ps, IsLowStock)
  }

  /** The low-stock filter keeps the list order: it distributes over concatenation. */
  lemma LowStockKeepsOrder(a: seq<Product>, b: seq<Product>)
    ensures LowStockProducts(a + b) == LowStockProducts(a) + LowStockProducts(b)
  {
    FilterAppend(a, b, IsLowStock);
  }

  /** A list with every product low is returned whole; one with none low yields nothing. */
  lemma LowStockExtremes(ps: seq<Product>)
    ensures (forall k :: 0 <= k < |ps| ==> IsLowStock(ps[k])) ==> LowStockProducts(ps) == ps
    ensures (forall k :: 0 <= k < |ps| ==> !IsLowStock(ps[k])) ==> LowStockProducts(ps) == []
  {
    if forall k :: 0 <= k < |ps| ==> IsLowStock(ps[k]) {
      FilterAll(ps, IsLowStock);
    }
    if forall k :: 0 <= k < |ps| ==> !IsLowStock(ps[k]) {
      FilterNone(ps, IsLowStock);
    }
  }

  /** Whether the list is in name order. */
  predicate SortedByName(ps: seq<Product>) {
    forall i, j :: 0 <= i < j < |ps| ==> NameLe(ps[i].name, ps[j].name)
  }

  /** A product that precedes every element of a sorted list can go in front of it. */
  lemma PrependSorted(x: Product, s: seq<Product>)
    requires SortedByName(s)
    requires forall j :: 0 <= j < |s| ==> NameLe(x.name, s[j].name)
    ensures SortedByName([x] + s)
  {
  }

  /** A lower bound of a list and of `p` bounds every element of a permutation of both. */
  lemma {:induction false} LowerBound(x: Product, p: Product, s: seq<Product>, t: seq<Product>)
    requires multiset(t) == multiset(s) + multiset{p}
    requires NameLe(x.name, p.name)
    requires forall j :: 0 <= j < |s| ==> NameLe(x.name, s[j].name)
    ensures forall j :: 0 <= j < |t| ==> NameLe(x.name, t[j].name)
  {
    forall j | 0 <= j < |t|
      ensures NameLe(x.name, t[j].name)
    {
      assert t[j] in multiset(t);
      if t[j] != p {
        assert t[j] in multiset(s);
        var i :| 0 <= i < |s| && s[i] == t[j];
      }
    }
  }

  /** `p` placed before the first product it does not follow. */
  function InsertByName(p: Product, sorted: seq<Product>): (r: seq<Product>)
    requires SortedByName(sorted)
    ensures multiset(r) == multiset(sorted) + multiset{p}
    ensures SortedByName(r)
  {
    if sorted == [] then [p]
    else if NameLe(p.name, sorted[0].name) then
      assert forall j :: 0 <= j < |sorted| ==> NameLe(p.name, sorted[j].name) by {
        forall j | 0 <= j < |sorted|
          ensures NameLe(p.name, sorted[j].name)
        {
          if j > 0 { NameLeTransitive(p.name, sorted[0].name, sorted[j].name); }
        }
      }
      PrependSorted(p, sorted);
      [p] + sorted
    else
      var rest := InsertByName(p, sorted[1..]);
      assert sorted == [sorted[0]] + sorted[1..];
      NameLeTotal(p.name, sorted[0].name);
      LowerBound(sorted[0], p, sorted[1..], rest);
      PrependSorted(sorted[0], rest);
      [sorted[0]] + rest
  }

  /** `.sort((a, b) => a.name.localeCompare(b.name))`, as an insertion sort: the same
      products, in name order. */
  function SortByName(ps: seq<Product>): (r: seq<Product>)
    ensures multiset(r) == multiset(ps)
    ensures SortedByName(r)
  {
    if ps == [] then []
    else
      assert ps == [ps[0]] + ps[1..];
      InsertByName(ps[0], SortByName(ps[1..]))
  }

  /** `map(p => p.id === id ? row : p)`: the entries with that id replaced by `row`. */
  function ReplaceById(ps: seq<Product>, id: Id, row: Product): (r: seq<Product>)
    ensures |r| == |ps|
    ensures forall k :: 0 <= k < |ps| ==> r[k] == if ps[k].id == id then row else ps[k]
  {
    seq(|ps|, k requires 0 <= k < |ps| => if ps[k].id == id then row else ps[k])
  }

  /** `filter(p => p.id !== id)`. */
  function WithoutProduct(ps: seq<Product>, id: Id): (r: seq<Product>)
    ensures forall p :: p in r <==> p in ps && p.id != id
  {
    Filter(ps, (p: Product) => p.id != id)
  }

  /** After creating, the cache holds the old products and the new row, and nothing else. */
  lemma CreatedCacheContents(ps: seq<Product>, row: Product)
    ensures forall q :: q in SortByName(ps + [row]) <==> q in ps || q == row
  {
    assert forall q :: q in SortByName(ps + [row]) <==> q in multiset(ps + [row]);
  }

  /** After updating, rows with other ids stay, the row with that id is the returned one,
      and no stale copy of it remains. */
  lemma UpdatedCacheContents(ps: seq<Product>, id: Id, row: Product)
    requires row.id == id
    ensures forall q :: q in ps && q.id != id ==> q in SortByName(ReplaceById(ps, id, row))
    ensures forall q :: q in SortByName(ReplaceById(ps, id, row)) && q.id == id ==> q == row
    ensures forall q :: q in SortByName(ReplaceById(ps, id, row)) ==> q in ps || q == row
  {
    var replaced := ReplaceById(ps, id, row);
    assert forall q :: q in SortByName(replaced) <==> q in multiset(replaced);
    forall q | q in ps && q.id != id
      ensures q in replaced
    {
      var k :| 0 <= k < |ps| && ps[k] == q;
      assert replaced[k] == q;
    }
  }

  /** Deleting a product removes that one entry; the others keep their order. */
  lemma RemovesOnlyThatProduct(a: seq<Product>, p: Product, b: seq<Product>)
    requires forall k :: 0 <= k < |a| ==> a[k].id != p.id
    requires forall k :: 0 <= k < |b| ==> b[k].id != p.id
    ensures WithoutProduct(a + [p] + b, p.id) == a + b
  {
    FilterDropsOne(a, p, b, (q: Product) => q.id != p.id);
  }

  /** The product hook: the store and the cached, name-sorted product list. */
  class ProductList {
    const db: Database
    var products: seq<Product>

    constructor (db: Database)
      ensures this.db == db && products == []
    {
      this.db := db;
      products := [];
    }

    /** Inserts the row, then adds it to the cache and re-sorts by name. */
    method CreateProduct(input: ProductInput) returns (r: Result<Product, Error>)
      modifies this`products, db`products
      ensures r.Failure? ==> r.error == StoreFailed(InsertProductRow)
                             && db.products == old(db.products) && products == old(products)
      ensures r.Success? ==> r.value.id !in old(db.products)
                             && db.products == old(db.products)[r.value.id := r.value]
                             && r.value == Product(r.value.id, input.name, input.currentQuantity,
                                                   input.minQuantity, input.conversionFactor, None)
                             && products == SortByName(old(products) + [r.value])
    {
      var row := db.InsertProduct(input);
      if row.None? {
        return Failure(StoreFailed(InsertProductRow));
      }
      products := SortByName(products + [row.value]);
      r := Success(row.value);
    }

    /** Updates the row, then replaces it in the cache and re-sorts by name. */
    method UpdateProduct(id: Id, patch: ProductPatch) returns (r: Result<Product, Error>)
      modifies this`products, db`products
      ensures r.Failure? ==> r.error == StoreFailed(UpdateProductRow)
                             && db.products == old(db.products) && products == old(products)
      ensures r.Success? ==> id in old(db.products) && r.value == Patched(old(db.products)[id], patch)
                             && db.products == old(db.products)[id := r.value]
                             && products == SortByName(ReplaceById(old(products), id, r.value))
    {
      var row := db.UpdateProduct(id, patch);
      if row.None? {
        return Failure(StoreFailed(UpdateProductRow));
      }
      products := SortByName(ReplaceById(products, id, row.value));
      r := Success(row.value);
    }

    /** Deletes the row, then drops it from the cache. */
    method DeleteProduct(id: Id) returns (r: Result<(), Error>)
      modifies this`products, db`products
      ensures r.Failure? ==> r.error == StoreFailed(DeleteProductRow)
                             && db.products == old(db.products) && products == old(products)
      ensures r.Success? ==> db.products == old(db.products) - {id}
                             && products == WithoutProduct(old(products), id)
    {
      var ok := db.DeleteProduct(id);
      if !ok {
        return Failure(StoreFailed(DeleteProductRow));
      }
      products := WithoutProduct(products, id);
      r := Success(());
    }
  }
}
