/** The entities of the stock ledger, the unit-conversion rules, and the hosted
    store's tables with the requests the hooks issue against them. Every request
    may fail; a failed request changes nothing, and there is no transaction, so the
    requests that succeeded before it stay applied. */
module Ledger {
  import opened Common
  import opened Calendar

  /** A product row (`products`). `currentQuantity` is in base units; the nullable
      columns are options. */
  datatype Product = Product(
    id: Id,
    name: string,
    currentQuantity: Option<real>,
    minQuantity: real,
    conversionFactor: Option<real>,
    lastUnitCost: Option<real>)

  /** The fields a caller supplies when creating a product. */
  datatype ProductInput = ProductInput(
    name: string,
    currentQuantity: Option<real>,
    minQuantity: real,
    conversionFactor: Option<real>)

  /** The columns an update may set; `None` leaves a column as it is. */
  datatype ProductPatch = ProductPatch(
    name: Option<string>,
    currentQuantity: Option<real>,
    minQuantity: Option<real>,
    conversionFactor: Option<real>)

  /** A purchase (`stock_entries`); `quantity` is in purchase units. */
  datatype StockEntry = StockEntry(
    id: Id,
    productId: Id,
    quantity: real,
    unitPrice: Option<real>,
    cost: real,
    date: Date,
    notes: string)

  datatype EntryInput = EntryInput(
    productId: Id,
    quantity: real,
    unitPrice: Option<real>,
    cost: real,
    date: Date,
    notes: string)

  /** A service type (`service_types`). */
  datatype ServiceType = ServiceType(id: Id, name: string, price: real)

  /** A bill-of-materials line (`service_products`). */
  datatype BomLine = BomLine(
    serviceTypeId: Id,
    productId: Id,
    defaultQuantity: real,
    useUnitSystem: bool)

  /** A performed service (`services`) with the price and material cost frozen at execution. */
  datatype Service = Service(
    id: Id,
    clientName: string,
    serviceTypeId: Id,
    date: Date,
    notes: string,
    price: real,
    productCost: real)

  datatype ServiceInput = ServiceInput(
    clientName: string,
    serviceTypeId: Id,
    date: Date,
    notes: string)

  /** An income or expense entry (`financial_records`). `kind` is the `type` column. */
  datatype FinancialRecord = FinancialRecord(
    kind: string,
    amount: Option<real>,
    referenceType: Option<string>,
    referenceId: Option<Id>,
    date: Date)

  const Income: string := "income"
  const Expense: string := "expense"
  const StockEntryRef: string := "stock_entry"
  const ServiceRef: string := "service"

  /** The request of a multi-step operation that failed. */
  datatype Step =
    | ReadProduct | InsertEntry | UpdateProduct | InsertRecord | DeleteEntryRow
    | ReadLines | ReadServiceType | InsertService | DeleteServiceRow
    | InsertType | UpdateType | DeleteLines | InsertLines | DeleteTypeRow
    | InsertProductRow | UpdateProductRow | DeleteProductRow | ReadRecords

  /** A line that failed the stock check, as the hook reports it. */
  datatype Shortfall = Shortfall(name: string, required: real, available: Option<real>)

  datatype Error =
    | StoreFailed(step: Step)
    | InsufficientStock(items: seq<Shortfall>)
      /** A bill-of-materials line whose joined product is null: reading a field of it throws. */
    | MissingProduct

  // ---------------------------------------------------------------------------
  // Unit & conversion model

  /** `current_quantity || 0`. */
  function Quantity(p: Product): real {
    p.currentQuantity.GetOr(0.0)
  }

  /** `conversion_factor || 1`: a null or zero factor counts as one. */
  function EffectiveFactor(p: Product): (f: real)
    ensures f != 0.0
    ensures p.conversionFactor.Some? && p.conversionFactor.value != 0.0 ==> f == p.conversionFactor.value
    ensures p.conversionFactor.None? || p.conversionFactor.value == 0.0 ==> f == 1.0
  {
    match p.conversionFactor
    case None => 1.0
    case Some(f) => if f == 0.0 then 1.0 else f
  }

  /** Base units a purchase of `quantity` purchase units adds. */
  function StockIncrease(p: Product, quantity: real): real {
    quantity * EffectiveFactor(p)
  }

  /** Base units one execution of a bill-of-materials line consumes (`deducedQuantity`). */
  function Deduced(line: BomLine, p: Product): (d: real)
    ensures line.useUnitSystem ==> d == line.defaultQuantity * EffectiveFactor(p)
    ensures !line.useUnitSystem ==> d == line.defaultQuantity
  {
    if line.useUnitSystem then line.defaultQuantity * EffectiveFactor(p) else line.defaultQuantity
  }

  /** The row with only `current_quantity` overwritten. */
  function WithQuantity(p: Product, q: real): Product {
    p.(currentQuantity := Some(q))
  }

  /** A bill-of-materials line with its product joined (`product:products(...)`);
      the join is null when no product row matches. */
  datatype JoinedLine = JoinedLine(line: BomLine, product: Option<Product>)

  /** The `service_products` rows of a service type, in table order. */
  function LinesOf(lines: seq<BomLine>, typeId: Id): (r: seq<BomLine>)
    ensures forall l :: l in r <==> l in lines && l.serviceTypeId == typeId
  {
    Filter(lines, (l: BomLine) => l.serviceTypeId == typeId)
  }

  /** The lines left after deleting those of service type `typeId`. */
  function LinesNotOf(lines: seq<BomLine>, typeId: Id): (r: seq<BomLine>)
    ensures forall l :: l in r <==> l in lines && l.serviceTypeId != typeId
  {
    Filter(lines, (l: BomLine) => l.serviceTypeId != typeId)
  }

  /** Joins each line with its product row. */
  function Join(lines: seq<BomLine>, products: map<Id, Product>): (r: seq<JoinedLine>)
    ensures |r| == |lines|
    ensures forall k :: 0 <= k < |lines| ==> r[k].line == lines[k]
    ensures forall k :: 0 <= k < |lines| ==>
      r[k].product == (if lines[k].productId in products then Some(products[lines[k].productId]) else None)
  {
    if lines == [] then []
    else
      var l := lines[0];
      [JoinedLine(l, if l.productId in products then Some(products[l.productId]) else None)]
      + Join(lines[1..], products)
  }

  /** The `service_type_id` foreign key of `service_products`: every line names an
      existing service type. */
  predicate LinesReferenceTypes(lines: seq<BomLine>, types: map<Id, ServiceType>) {
    forall k :: 0 <= k < |lines| ==> lines[k].serviceTypeId in types
  }

  /** A `current_quantity` write issued by the deduct and restore loops. */
  datatype QuantityWrite = QuantityWrite(productId: Id, quantity: real)

  /** The product table after the writes, in order; a write to a missing row matches nothing. */
  function ApplyWrites(products: map<Id, Product>, writes: seq<QuantityWrite>): (r: map<Id, Product>)
    ensures r.Keys == products.Keys
  {
    if writes == [] then products
    else
      var before := ApplyWrites(products, writes[..|writes| - 1]);
      var w := writes[|writes| - 1];
      if w.productId in before then before[w.productId := WithQuantity(before[w.productId], w.quantity)]
      else before
  }

  // ---------------------------------------------------------------------------
  // The hosted store

  class Database {
    var products: map<Id, Product>
    var entries: map<Id, StockEntry>
    var serviceTypes: map<Id, ServiceType>
    var lines: seq<BomLine>
    var services: map<Id, Service>
    var records: seq<FinancialRecord>

    constructor ()
      ensures products == map[] && entries == map[] && serviceTypes == map[]
      ensures lines == [] && services == map[] && records == []
    {
      products, entries, serviceTypes := map[], map[], map[];
      lines, services, records := [], map[], [];
    }

    /** Whether the store answers a request; any request may fail. */
    method Respond() returns (ok: bool) {
      ok := *;
    }

    /** `.from('products').select(...).eq('id', id).single()`: fails when no row matches. */
    method ReadProduct(id: Id) returns (r: Option<Product>)
      ensures r.Some? ==> id in products && r.value == products[id]
      ensures id !in products ==> r.None?
    {
      var ok := Respond();
      r := if ok && id in products then Some(products[id]) else None;
    }

    method InsertEntry(input: EntryInput) returns (r: Option<StockEntry>)
      modifies this`entries
      ensures r.None? ==> entries == old(entries)
      ensures r.Some? ==> r.value.id !in old(entries) && entries == old(entries)[r.value.id := r.value]
      ensures r.Some? ==> r.value == StockEntry(r.value.id, input.productId, input.quantity,
                                                input.unitPrice, input.cost, input.date, input.notes)
    {
      var ok := Respond();
      if !ok { return None; }
      FreshIdExists(entries.Keys);
      var id: Id :| id !in entries.Keys;
      var e := StockEntry(id, input.productId, input.quantity, input.unitPrice, input.cost, input.date, input.notes);
      entries := entries[id := e];
      r := Some(e);
    }

    /** `.update({current_quantity, last_unit_cost}).eq('id', id)`. */
    method UpdateStock(id: Id, quantity: real, unitCost: Option<real>) returns (ok: bool)
      modifies this`products
      ensures !ok ==> products == old(products)
      ensures ok ==> products == if id in old(products)
                                 then old(products)[id := old(products)[id].(currentQuantity := Some(quantity), lastUnitCost := unitCost)]
                                 else old(products)
    {
      ok := Respond();
      if ok && id in products {
        products := products[id := products[id].(currentQuantity := Some(quantity), lastUnitCost := unitCost)];
      }
    }

    /** `.update({current_quantity}).eq('id', id)`. */
    method UpdateQuantity(id: Id, quantity: real) returns (ok: bool)
      modifies this`products
      ensures !ok ==> products == old(products)
      ensures ok ==> products == ApplyWrites(old(products), [QuantityWrite(id, quantity)])
    {
      ok := Respond();
      if ok && id in products {
        products := products[id := WithQuantity(products[id], quantity)];
      }
      assert [QuantityWrite(id, quantity)][..0] == [];
    }

    method InsertRecord(rec: FinancialRecord) returns (ok: bool)
      modifies this`records
      ensures ok ==> records == old(records) + [rec]
      ensures !ok ==> records == old(records)
    {
      ok := Respond();
      if ok {
        records := records + [rec];
      }
    }

    /** `.delete().eq('reference_type', refType).eq('reference_id', refId)`. */
    method DeleteRecordsFor(refType: string, refId: Id) returns (ok: bool)
      modifies this`records
      ensures ok ==> records == Unreferenced(old(records), refType, refId)
      ensures !ok ==> records == old(records)
    {
      ok := Respond();
      if ok {
        records := Unreferenced(records, refType, refId);
      }
    }

    /** `.delete().eq('id', id)` on `stock_entries`: deleting a missing row is no error. */
    method DeleteEntry(id: Id) returns (ok: bool)
      modifies this`entries
      ensures ok ==> entries == old(entries) - {id}
      ensures !ok ==> entries == old(entries)
    {
      ok := Respond();
      if ok {
        entries := entries - {id};
      }
    }

    /** `service_products` of a type with their products joined. */
    method SelectLines(typeId: Id) returns (r: Option<seq<JoinedLine>>)
      ensures r.Some? ==> r.value == Join(LinesOf(lines, typeId), products)
    {
      var ok := Respond();
      r := if ok then Some(Join(LinesOf(lines, typeId), products)) else None;
    }

    method ReadServiceType(id: Id) returns (r: Option<ServiceType>)
      ensures r.Some? ==> id in serviceTypes && r.value == serviceTypes[id]
      ensures id !in serviceTypes ==> r.None?
    {
      var ok := Respond();
      r := if ok && id in serviceTypes then Some(serviceTypes[id]) else None;
    }

    method InsertService(input: ServiceInput, price: real, productCost: real) returns (r: Option<Service>)
      modifies this`services
      ensures r.None? ==> services == old(services)
      ensures r.Some? ==> r.value.id !in old(services) && services == old(services)[r.value.id := r.value]
      ensures r.Some? ==> r.value == Service(r.value.id, input.clientName, input.serviceTypeId,
                                             input.date, input.notes, price, productCost)
    {
      var ok := Respond();
      if !ok { return None; }
      FreshIdExists(services.Keys);
      var id: Id :| id !in services.Keys;
      var s := Service(id, input.clientName, input.serviceTypeId, input.date, input.notes, price, productCost);
      services := services[id := s];
      r := Some(s);
    }

    method DeleteService(id: Id) returns (ok: bool)
      modifies this`services
      ensures ok ==> services == old(services) - {id}
      ensures !ok ==> services == old(services)
    {
      ok := Respond();
      if ok {
        services := services - {id};
      }
    }

    method InsertServiceType(name: string, price: real) returns (r: Option<ServiceType>)
      modifies this`serviceTypes
      ensures r.None? ==> serviceTypes == old(serviceTypes)
      ensures r.Some? ==> r.value.id !in old(serviceTypes) && serviceTypes == old(serviceTypes)[r.value.id := r.value]
      ensures r.Some? ==> r.value.name == name && r.value.price == price
      ensures old(LinesReferenceTypes(lines, serviceTypes)) ==> LinesReferenceTypes(lines, serviceTypes)
    {
      var ok := Respond();
      if !ok { return None; }
      FreshIdExists(serviceTypes.Keys);
      var id: Id :| id !in serviceTypes.Keys;
      var t := ServiceType(id, name, price);
      serviceTypes := serviceTypes[id := t];
      r := Some(t);
    }

    /** `.update({name, price}).eq('id', id)`: no row matching is no error. */
    method UpdateServiceType(id: Id, name: string, price: real) returns (ok: bool)
      modifies this`serviceTypes
      ensures !ok ==> serviceTypes == old(serviceTypes)
      ensures ok ==> serviceTypes == if id in old(serviceTypes)
                                     then old(serviceTypes)[id := old(serviceTypes)[id].(name := name, price := price)]
                                     else old(serviceTypes)
      ensures old(LinesReferenceTypes(lines, serviceTypes)) ==> LinesReferenceTypes(lines, serviceTypes)
    {
      ok := Respond();
      if ok && id in serviceTypes {
        serviceTypes := serviceTypes[id := serviceTypes[id].(name := name, price := price)];
      }
    }

    /** `.delete().eq('service_type_id', typeId)` on `service_products`. */
    method DeleteLinesOf(typeId: Id) returns (ok: bool)
      modifies this`lines
      ensures ok ==> lines == LinesNotOf(old(lines), typeId)
      ensures !ok ==> lines == old(lines)
      ensures old(LinesReferenceTypes(lines, serviceTypes)) ==> LinesReferenceTypes(lines, serviceTypes)
    {
      ok := Respond();
      if ok {
        lines := LinesNotOf(lines, typeId);
      }
    }

    /** One batch insert: all rows or none. The `service_type_id` foreign key refuses
        the whole batch when one of its lines names a type that does not exist. */
    method InsertLines(batch: seq<BomLine>) returns (ok: bool)
      modifies this`lines
      ensures ok ==> lines == old(lines) + batch && LinesReferenceTypes(batch, serviceTypes)
      ensures !LinesReferenceTypes(batch, serviceTypes) ==> !ok
      ensures !ok ==> lines == old(lines)
      ensures old(LinesReferenceTypes(lines, serviceTypes)) ==> LinesReferenceTypes(lines, serviceTypes)
    {
      ok := Respond();
      if ok && LinesReferenceTypes(batch, serviceTypes) {
        lines := lines + batch;
      } else {
        ok := false;
      }
    }

    /** Deletes a service type; its `service_products` rows go with it by cascade. */
    method DeleteServiceType(id: Id) returns (ok: bool)
      modifies this`serviceTypes, this`lines
      ensures ok ==> (serviceTypes == old(serviceTypes) - {id} &&
                      lines == LinesNotOf(old(lines), id))
      ensures !ok ==> serviceTypes == old(serviceTypes) && lines == old(lines)
      ensures old(LinesReferenceTypes(lines, serviceTypes)) ==> LinesReferenceTypes(lines, serviceTypes)
    {
      ok := Respond();
      if ok {
        serviceTypes := serviceTypes - {id};
        lines := LinesNotOf(lines, id);
      }
    }

    method InsertProduct(input: ProductInput) returns (r: Option<Product>)
      modifies this`products
      ensures r.None? ==> products == old(products)
      ensures r.Some? ==> r.value.id !in old(products) && products == old(products)[r.value.id := r.value]
      ensures r.Some? ==> r.value == Product(r.value.id, input.name, input.currentQuantity,
                                             input.minQuantity, input.conversionFactor, None)
    {
      var ok := Respond();
      if !ok { return None; }
      FreshIdExists(products.Keys);
      var id: Id :| id !in products.Keys;
      var p := Product(id, input.name, input.currentQuantity, input.minQuantity, input.conversionFactor, None);
      products := products[id := p];
      r := Some(p);
    }

    /** `.update(patch).eq('id', id).select().single()`: no matching row is an error. */
    method UpdateProduct(id: Id, patch: ProductPatch) returns (r: Option<Product>)
      modifies this`products
      ensures r.None? ==> products == old(products)
      ensures r.Some? ==> id in old(products) && r.value == Patched(old(products)[id], patch)
                          && products == old(products)[id := r.value]
    {
      var ok := Respond();
      if !ok || id !in products { return None; }
      var p := Patched(products[id], patch);
      products := products[id := p];
      r := Some(p);
    }

    method DeleteProduct(id: Id) returns (ok: bool)
      modifies this`products
      ensures ok ==> products == old(products) - {id}
      ensures !ok ==> products == old(products)
    {
      ok := Respond();
      if ok {
        products := products - {id};
      }
    }

    /** `financial_records` matching a query, in table order. */
    method SelectRecords(keep: FinancialRecord -> bool) returns (r: Option<seq<FinancialRecord>>)
      ensures r.Some? ==> r.value == Filter(records, keep)
    {
      var ok := Respond();
      r := if ok then Some(Filter(records, keep)) else None;
    }
  }

  /** Whether a financial record is the one posted for (refType, refId). */
  predicate References(rec: FinancialRecord, refType: string, refId: Id) {
    rec.referenceType == Some(refType) && rec.referenceId == Some(refId)
  }

  /** The records left after deleting those that reference (`refType`, `refId`). */
  function Unreferenced(records: seq<FinancialRecord>, refType: string, refId: Id): (r: seq<FinancialRecord>)
    ensures forall rec :: rec in r <==> rec in records && !References(rec, refType, refId)
  {
    Filter(records, (rec: FinancialRecord) => !References(rec, refType, refId))
  }

  /** A product row with the columns of `patch` overwritten. */
  function Patched(p: Product, patch: ProductPatch): (q: Product)
    ensures q.id == p.id && q.lastUnitCost == p.lastUnitCost
    ensures q.name == patch.name.GetOr(p.name)
    ensures q.minQuantity == patch.minQuantity.GetOr(p.minQuantity)
    ensures q.currentQuantity == (if patch.currentQuantity.Some? then patch.currentQuantity else p.currentQuantity)
    ensures q.conversionFactor == (if patch.conversionFactor.Some? then patch.conversionFactor else p.conversionFactor)
  {
    p.(name := patch.name.GetOr(p.name),
       currentQuantity := if patch.currentQuantity.Some? then patch.currentQuantity else p.currentQuantity,
       minQuantity := patch.minQuantity.GetOr(p.minQuantity),
       conversionFactor := if patch.conversionFactor.Some? then patch.conversionFactor else p.conversionFactor)
  }
}
