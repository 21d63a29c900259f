/** Purchases (`useStockEntries`): recording a stock entry raises the product's
    quantity by the purchase converted to base units, sets the last unit cost from
    this purchase alone and posts one expense; deleting an entry lowers the quantity
    by the raw purchased quantity, clamped at zero. */
module StockEntries {
  import opened Common
  import opened Calendar
  import opened Ledger

  /** `cost / stockIncrease`. A zero increase gives JavaScript an infinite or NaN
      cost, which JSON serialisation sends to the store as null. */
  function UnitCost(cost: real, increase: real): (c: Option<real>)
    ensures increase != 0.0 ==> c == Some(cost / increase)
    ensures increase == 0.0 ==> c.None?
  {
    if increase == 0.0 then None else Some(cost / increase)
  }

  /** The product row after a purchase of `quantity` purchase units costing `cost`. */
  function Restock(p: Product, quantity: real, cost: real): (q: Product)
    ensures q.id == p.id && q.name == p.name && q.minQuantity == p.minQuantity
            && q.conversionFactor == p.conversionFactor
    ensures q.currentQuantity == Some(Quantity(p) + quantity * EffectiveFactor(p))
    ensures q.lastUnitCost == UnitCost(cost, quantity * EffectiveFactor(p))
  {
    var increase := StockIncrease(p, quantity);
    assert increase == quantity * EffectiveFactor(p);
    p.(currentQuantity := Some(Quantity(p) + increase), lastUnitCost := UnitCost(cost, increase))
  }

  /** The product row after deleting an entry of `quantity`: `max(0, current - quantity)`. */
  function Unstock(p: Product, quantity: real): (q: Product)
    ensures q.id == p.id && q.name == p.name && q.minQuantity == p.minQuantity
            && q.conversionFactor == p.conversionFactor && q.lastUnitCost == p.lastUnitCost
    ensures q.currentQuantity.Some? && Quantity(q) >= 0.0
    ensures Quantity(p) >= quantity ==> Quantity(q) == Quantity(p) - quantity
    ensures Quantity(p) < quantity ==> Quantity(q) == 0.0
  {
    p.(currentQuantity := Some(MaxReal(0.0, Quantity(p) - quantity)))
  }

  /** The stock entry row a successful insert creates. */
  function NewEntry(id: Id, input: EntryInput): StockEntry {
    StockEntry(id, input.productId, input.quantity, input.unitPrice, input.cost, input.date, input.notes)
  }

  /** The expense posted for entry `id`. */
  function EntryExpense(id: Id, input: EntryInput): FinancialRecord {
    FinancialRecord(Expense, Some(input.cost), Some(StockEntryRef), Some(id), input.date)
  }

  /** A purchase adds `quantity × factor` base units to the old quantity (null counting
      as 0, a null or zero factor as 1) and leaves every column but quantity and last
      unit cost as it was. */
  lemma RestockQuantity(p: Product, quantity: real, cost: real)
    ensures Quantity(Restock(p, quantity, cost)) == Quantity(p) + quantity * EffectiveFactor(p)
    ensures (p.conversionFactor.None? || p.conversionFactor == Some(0.0)) ==>
              Quantity(Restock(p, quantity, cost)) == Quantity(p) + quantity
    ensures var q := Restock(p, quantity, cost);
            q.id == p.id && q.name == p.name && q.minQuantity == p.minQuantity && q.conversionFactor == p.conversionFactor
  {
  }

  /** The last unit cost is this purchase's cost per base unit, and it depends on
      nothing recorded before: two products that differ only in history get the same
      last unit cost from the same purchase (last write wins, no averaging). */
  lemma RestockCostIsLastWrite(p: Product, p': Product, quantity: real, cost: real)
    requires p.conversionFactor == p'.conversionFactor
    requires quantity * EffectiveFactor(p) != 0.0
    ensures Restock(p, quantity, cost).lastUnitCost == Some(cost / (quantity * EffectiveFactor(p)))
    ensures Restock(p, quantity, cost).lastUnitCost == Restock(p', quantity, cost).lastUnitCost
  {
    assert EffectiveFactor(p) == EffectiveFactor(p');
    assert StockIncrease(p, quantity) == StockIncrease(p', quantity) == quantity * EffectiveFactor(p);
  }

  /** A later purchase wholly replaces the cost of an earlier one. */
  lemma {:induction false} SecondPurchaseOverwritesCost(p: Product, q1: real, c1: real, q2: real, c2: real)
    requires q2 != 0.0
    ensures Restock(Restock(p, q1, c1), q2, c2).lastUnitCost == Restock(p, q2, c2).lastUnitCost
  {
    var p1 := Restock(p, q1, c1);
    var f := EffectiveFactor(p);
    assert EffectiveFactor(p1) == f;
    assert StockIncrease(p1, q2) == StockIncrease(p, q2) == q2 * f;
  }

  /** Deleting an entry never leaves a negative quantity, subtracts the raw recorded
      quantity with no conversion, and touches no other column. */
  lemma UnstockQuantity(p: Product, quantity: real)
    ensures Quantity(Unstock(p, quantity)) >= 0.0
    ensures Quantity(p) - quantity >= 0.0 ==> Quantity(Unstock(p, quantity)) == Quantity(p) - quantity
    ensures Quantity(p) - quantity < 0.0 ==> Quantity(Unstock(p, quantity)) == 0.0
    ensures var q := Unstock(p, quantity);
            q.id == p.id && q.name == p.name && q.minQuantity == p.minQuantity
            && q.conversionFactor == p.conversionFactor && q.lastUnitCost == p.lastUnitCost
  {
  }

  /** Creating and then deleting the same entry returns the quantity to
      `max(0, old + quantity × (factor - 1))`: the two formulas are asymmetric, so the
      round trip restores the old quantity only when the factor is effectively one. */
  lemma {:induction false} CreateThenDelete(p: Product, quantity: real, cost: real)
    ensures Quantity(Unstock(Restock(p, quantity, cost), quantity))
            == MaxReal(0.0, Quantity(p) + quantity * (EffectiveFactor(p) - 1.0))
    ensures EffectiveFactor(p) == 1.0 && Quantity(p) >= 0.0 ==>
              Quantity(Unstock(Restock(p, quantity, cost), quantity)) == Quantity(p)
  {
    var q := Restock(p, quantity, cost);
    assert Quantity(q) - quantity == Quantity(p) + quantity * (EffectiveFactor(p) - 1.0);
  }

  /** Deleting the same entry twice subtracts its quantity twice (the store does not
      refuse the second deletion). */
  lemma {:induction false} DeleteTwice(p: Product, quantity: real)
    requires quantity >= 0.0
    ensures Quantity(Unstock(Unstock(p, quantity), quantity)) == MaxReal(0.0, Quantity(p) - 2.0 * quantity)
  {
    var once := Unstock(p, quantity);
    if Quantity(p) - quantity >= 0.0 {
      assert Quantity(once) - quantity == Quantity(p) - 2.0 * quantity;
    } else {
      assert Quantity(once) == 0.0;
    }
  }

  /** 1 bottle = 5 ml, empty stock: buying 2 bottles for 20 gives 10 ml at 2 per ml;
      deleting that entry afterwards leaves 8 ml, not 0. */
  lemma {:induction false} BottleScenario(p: Product)
    requires p.currentQuantity == Some(0.0) && p.conversionFactor == Some(5.0)
    ensures Restock(p, 2.0, 20.0).currentQuantity == Some(10.0)
    ensures Restock(p, 2.0, 20.0).lastUnitCost == Some(2.0)
    ensures Unstock(Restock(p, 2.0, 20.0), 2.0).currentQuantity == Some(8.0)
  {
    assert EffectiveFactor(p) == 5.0;
    assert StockIncrease(p, 2.0) == 10.0;
  }

  /** The list with entry `id` removed, the others in order. */
  function WithoutEntry(es: seq<StockEntry>, id: Id): (r: seq<StockEntry>)
    ensures forall e :: e in r <==> e in es && e.id != id
  {
    Filter(es, (e: StockEntry) => e.id != id)
  }

  /** Deleting a cached entry removes that one entry; the others keep their order. */
  lemma RemovesOnlyThatEntry(a: seq<StockEntry>, e: StockEntry, b: seq<StockEntry>)
    requires forall k :: 0 <= k < |a| ==> a[k].id != e.id
    requires forall k :: 0 <= k < |b| ==> b[k].id != e.id
    ensures WithoutEntry(a + [e] + b, e.id) == a + b
  {
    FilterDropsOne(a, e, b, (x: StockEntry) => x.id != e.id);
  }

  /** The entry list shared by every user of the hook (`globalEntries`). */
  class EntryList {
    const db: Database
    var entries: seq<StockEntry>

    constructor (db: Database)
      ensures this.db == db && entries == []
    {
      this.db := db;
      entries := [];
    }

    /** `createEntry`: read the product, insert the entry, update the product, post the
        expense, then put the entry at the front of the list. A failing request throws
        and leaves the earlier writes in place; `id` is the identifier the store gave
        the entry row. */
    method CreateEntry(input: EntryInput) returns (r: Result<StockEntry, Error>, ghost id: Id)
      modifies this`entries, db`entries, db`products, db`records
      ensures r.Failure? ==> r.error in {StoreFailed(ReadProduct), StoreFailed(InsertEntry),
                                         StoreFailed(UpdateProduct), StoreFailed(InsertRecord)}
      ensures input.productId !in old(db.products) ==> r == Failure(StoreFailed(ReadProduct))
      // nothing is written before the entry row exists
      ensures r == Failure(StoreFailed(ReadProduct)) || r == Failure(StoreFailed(InsertEntry)) ==>
                db.entries == old(db.entries) && db.products == old(db.products) && db.records == old(db.records)
      // the entry row exists from the third step on
      ensures r.Success? || r == Failure(StoreFailed(UpdateProduct)) || r == Failure(StoreFailed(InsertRecord)) ==>
                input.productId in old(db.products) && id !in old(db.entries)
                && db.entries == old(db.entries)[id := NewEntry(id, input)]
      ensures r == Failure(StoreFailed(UpdateProduct)) ==>
                db.products == old(db.products) && db.records == old(db.records)
      ensures r.Success? || r == Failure(StoreFailed(InsertRecord)) ==>
                db.products == old(db.products)[input.productId :=
                                 Restock(old(db.products)[input.productId], input.quantity, input.cost)]
      ensures r == Failure(StoreFailed(InsertRecord)) ==> db.records == old(db.records)
      ensures r.Success? ==> r.value == NewEntry(id, input)
                             && db.records == old(db.records) + [EntryExpense(id, input)]
      ensures r.Success? ==> entries == [r.value] + old(entries)
      ensures r.Failure? ==> entries == old(entries)
    {
      id := 0;
      var product := db.ReadProduct(input.productId);
      if product.None? {
        return Failure(StoreFailed(ReadProduct)), id;
      }
      var inserted := db.InsertEntry(input);
      if inserted.None? {
        return Failure(StoreFailed(InsertEntry)), id;
      }
      var entry := inserted.value;
      id := entry.id;
      var p := product.value;
      var increase := StockIncrease(p, input.quantity);
      var newQuantity := Quantity(p) + increase;
      var unitCost := UnitCost(input.cost, increase);
      var ok := db.UpdateStock(input.productId, newQuantity, unitCost);
      if !ok {
        return Failure(StoreFailed(UpdateProduct)), id;
      }
      ok := db.InsertRecord(EntryExpense(entry.id, input));
      if !ok {
        return Failure(StoreFailed(InsertRecord)), id;
      }
      entries := [entry] + entries;
      r := Success(entry);
    }

    /** `deleteEntry(id, entry)`: lower the product's quantity by the recorded quantity
        (clamped at 0), delete the paired expense on a best-effort basis (a failure there
        is only warned about), delete the entry row, then drop it from the list. */
    method DeleteEntry(id: Id, entry: StockEntry) returns (r: Result<(), Error>)
      modifies this`entries, db`entries, db`products, db`records
      ensures r.Failure? ==> r.error in {StoreFailed(ReadProduct), StoreFailed(UpdateProduct), StoreFailed(DeleteEntryRow)}
      ensures entry.productId !in old(db.products) ==> r == Failure(StoreFailed(ReadProduct))
      ensures r == Failure(StoreFailed(ReadProduct)) || r == Failure(StoreFailed(UpdateProduct)) ==>
                db.products == old(db.products) && db.records == old(db.records) && db.entries == old(db.entries)
      ensures r.Success? || r == Failure(StoreFailed(DeleteEntryRow)) ==>
                entry.productId in old(db.products)
                && db.products == old(db.products)[entry.productId := Unstock(old(db.products)[entry.productId], entry.quantity)]
                && (db.records == old(db.records)
                    || db.records == Unreferenced(old(db.records), StockEntryRef, id))
      ensures r == Failure(StoreFailed(DeleteEntryRow)) ==> db.entries == old(db.entries)
      ensures r.Success? ==> db.entries == old(db.entries) - {id}
      ensures r.Success? ==> entries == WithoutEntry(old(entries), id)
      ensures r.Failure? ==> entries == old(entries)
    {
      var product := db.ReadProduct(entry.productId);
      if product.None? {
        return Failure(StoreFailed(ReadProduct));
      }
      var p := product.value;
      var newQuantity := MaxReal(0.0, Quantity(p) - entry.quantity);
      var ok := db.UpdateQuantity(entry.productId, newQuantity);
      if !ok {
        return Failure(StoreFailed(UpdateProduct));
      }
      var financeOk := db.DeleteRecordsFor(StockEntryRef, id);
      ok := db.DeleteEntry(id);
      if !ok {
        return Failure(StoreFailed(DeleteEntryRow));
      }
      entries := WithoutEntry(entries, id);
      r := Success(());
    }
  }
}
