/** Service executions (`useServices`): a stock check over the service type's bill
    of materials, then — only if every line is covered — a service row with the price
    and material cost frozen, one deduction per line and one income record. Deleting a
    service puts back what the *current* bill of materials consumes. */
module Services {
  import opened Common
  import opened Calendar
  import opened Ledger

  /** A bill-of-materials line with its product and its `deducedQuantity`. */
  datatype PlannedLine = PlannedLine(line: BomLine, product: Product, deduced: real)

  /** What `checkStockAvailability` returns. */
  datatype StockCheck = StockCheck(available: bool, insufficient: seq<Shortfall>, planned: seq<PlannedLine>)

  /** `serviceProducts.map(sp => ({ ...sp, deducedQuantity }))`; reading a field of a
      null joined product throws. */
  function Plan(joined: seq<JoinedLine>): (r: Option<seq<PlannedLine>>)
    ensures r.Some? <==> forall k :: 0 <= k < |joined| ==> joined[k].product.Some?
    ensures r.Some? ==> |r.value| == |joined|
    ensures r.Some? ==> forall k :: 0 <= k < |joined| ==>
      r.value[k] == PlannedLine(joined[k].line, joined[k].product.value,
                                Deduced(joined[k].line, joined[k].product.value))
  {
    if joined == [] then Some([])
    else if joined[0].product.None? then None
    else
      var rest := Plan(joined[1..]);
      if rest.None? then None
      else
        var j := joined[0];
        Some([PlannedLine(j.line, j.product.value, Deduced(j.line, j.product.value))] + rest.value)
  }

  /** `sp.product.current_quantity < sp.deducedQuantity`. */
  predicate IsShort(pl: PlannedLine) {
    Quantity(pl.product) < pl.deduced
  }

  function ShortfallOf(pl: PlannedLine): Shortfall {
    Shortfall(pl.product.name, pl.deduced, pl.product.currentQuantity)
  }

  /** The insufficient lines, reported as (name, required, available), in order. */
  function Shortfalls(planned: seq<PlannedLine>): (r: seq<Shortfall>)
    ensures |r| <= |planned|
    ensures r == [] <==> forall k :: 0 <= k < |planned| ==> !IsShort(planned[k])
    ensures forall s :: s in r <==> exists k :: 0 <= k < |planned| && IsShort(planned[k]) && s == ShortfallOf(planned[k])
  {
    if planned == [] then []
    else
      var rest := Shortfalls(planned[1..]);
      assert forall k :: 1 <= k < |planned| ==> planned[k] == planned[1..][k - 1];
      if IsShort(planned[0]) then [ShortfallOf(planned[0])] + rest else rest
  }

  /** `checkStockAvailability` over the joined bill of materials. */
  function Check(joined: seq<JoinedLine>): (r: Result<StockCheck, Error>)
    ensures r.Failure? <==> exists k :: 0 <= k < |joined| && joined[k].product.None?
    ensures r.Failure? ==> r.error == MissingProduct
    ensures r.Success? ==> (r.value.available <==>
      forall k :: 0 <= k < |joined| ==> Quantity(joined[k].product.value) >= Deduced(joined[k].line, joined[k].product.value))
    ensures r.Success? ==> (r.value.available <==> r.value.insufficient == [])
  {
    var plan := Plan(joined);
    if plan.None? then Failure(MissingProduct)
    else
      var insufficient := Shortfalls(plan.value);
      Success(StockCheck(insufficient == [], insufficient, plan.value))
  }

  /** A successful check carries the plan, and its shortfalls are those of the plan's
      short lines, in line order. */
  lemma CheckReportsShortfalls(joined: seq<JoinedLine>)
    requires Check(joined).Success?
    ensures Plan(joined).Some? && Check(joined).value.planned == Plan(joined).value
    ensures Check(joined).value.insufficient == Shortfalls(Plan(joined).value)
  {
  }

  /** The stock check a hook call sees for service type `typeId` in this store state. */
  function CheckFor(lines: seq<BomLine>, products: map<Id, Product>, typeId: Id): Result<StockCheck, Error> {
    Check(Join(LinesOf(lines, typeId), products))
  }

  /** `Σ deducedQuantity × (last_unit_cost || 0)`. */
  function ProductCost(planned: seq<PlannedLine>): real {
    if planned == [] then 0.0
    else planned[0].deduced * planned[0].product.lastUnitCost.GetOr(0.0) + ProductCost(planned[1..])
  }

  /** The material cost is additive over the lines. */
  lemma {:induction false} ProductCostAppend(a: seq<PlannedLine>, b: seq<PlannedLine>)
    ensures ProductCost(a + b) == ProductCost(a) + ProductCost(b)
  {
    if a == [] {
      assert a + b == b;
    } else {
      assert (a + b)[1..] == a[1..] + b;
      ProductCostAppend(a[1..], b);
    }
  }

  /** With non-negative quantities and costs the material cost is non-negative. */
  lemma {:induction false} ProductCostNonNegative(planned: seq<PlannedLine>)
    requires forall k :: 0 <= k < |planned| ==> planned[k].deduced >= 0.0 && planned[k].product.lastUnitCost.GetOr(0.0) >= 0.0
    ensures ProductCost(planned) >= 0.0
  {
    if planned != [] {
      ProductCostNonNegative(planned[1..]);
    }
  }

  /** An empty bill of materials is always available and costs nothing. */
  lemma EmptyBillOfMaterials()
    ensures Check([]) == Success(StockCheck(true, [], []))
    ensures ProductCost([]) == 0.0
  {
  }

  /** `current_quantity - deducedQuantity`, computed from the checked row. */
  function DeductWrites(planned: seq<PlannedLine>): (ws: seq<QuantityWrite>)
    ensures |ws| == |planned|
    ensures forall k :: 0 <= k < |planned| ==>
      ws[k] == QuantityWrite(planned[k].line.productId, Quantity(planned[k].product) - planned[k].deduced)
  {
    seq(|planned|, k requires 0 <= k < |planned| =>
      QuantityWrite(planned[k].line.productId, Quantity(planned[k].product) - planned[k].deduced))
  }

  /** `current_quantity + restoredQuantity` for one joined line. */
  function RestoreWrite(j: JoinedLine): QuantityWrite
    requires j.product.Some?
  {
    QuantityWrite(j.line.productId, Quantity(j.product.value) + Deduced(j.line, j.product.value))
  }

  function RestoreWrites(joined: seq<JoinedLine>): (ws: seq<QuantityWrite>)
    requires forall k :: 0 <= k < |joined| ==> joined[k].product.Some?
    ensures |ws| == |joined|
    ensures forall k :: 0 <= k < |joined| ==> ws[k] == RestoreWrite(joined[k])
  {
    seq(|joined|, k requires 0 <= k < |joined| => RestoreWrite(joined[k]))
  }

  /** The income record posted for service `id`. */
  function ServiceIncome(id: Id, price: real, date: Date): FinancialRecord {
    FinancialRecord(Income, Some(price), Some(ServiceRef), Some(id), date)
  }

  predicate DistinctWriteTargets(ws: seq<QuantityWrite>) {
    forall i, j :: 0 <= i < j < |ws| ==> ws[i].productId != ws[j].productId
  }

  predicate NotWritten(ws: seq<QuantityWrite>, id: Id) {
    forall k :: 0 <= k < |ws| ==> ws[k].productId != id
  }

  /** A product no write names is left as it was. */
  lemma {:induction false} WriteMisses(m: map<Id, Product>, ws: seq<QuantityWrite>, id: Id)
    requires id in m && NotWritten(ws, id)
    ensures ApplyWrites(m, ws)[id] == m[id]
  {
    if ws != [] {
      var init := ws[..|ws| - 1];
      assert NotWritten(init, id);
      WriteMisses(m, init, id);
    }
  }

  /** With distinct targets each write lands exactly on its product, and only the
      quantity changes. */
  lemma {:induction false} WriteLands(m: map<Id, Product>, ws: seq<QuantityWrite>, k: nat)
    requires DistinctWriteTargets(ws) && k < |ws| && ws[k].productId in m
    ensures ApplyWrites(m, ws)[ws[k].productId] == WithQuantity(m[ws[k].productId], ws[k].quantity)
  {
    var n := |ws| - 1;
    var init := ws[..n];
    assert DistinctWriteTargets(init);
    if k < n {
      assert init[k] == ws[k];
      WriteLands(m, init, k);
    } else {
      assert NotWritten(init, ws[n].productId);
      WriteMisses(m, init, ws[n].productId);
    }
  }

  predicate DistinctProducts(lines: seq<BomLine>) {
    forall i, j :: 0 <= i < j < |lines| ==> lines[i].productId != lines[j].productId
  }

  /** The product table after the deduct loop of a passed check. */
  function Deducted(lines: seq<BomLine>, m: map<Id, Product>): map<Id, Product>
    requires Check(Join(lines, m)).Success?
  {
    ApplyWrites(m, DeductWrites(Check(Join(lines, m)).value.planned))
  }

  predicate Unlisted(lines: seq<BomLine>, id: Id) {
    forall k :: 0 <= k < |lines| ==> lines[k].productId != id
  }

  /** A passed check found every listed product and planned each line from its row. */
  lemma {:induction false} CheckedPlan(lines: seq<BomLine>, m: map<Id, Product>)
    requires Check(Join(lines, m)).Success?
    ensures |Check(Join(lines, m)).value.planned| == |lines|
    ensures forall k :: 0 <= k < |lines| ==> lines[k].productId in m
    ensures forall k :: 0 <= k < |lines| ==>
      Check(Join(lines, m)).value.planned[k]
        == PlannedLine(lines[k], m[lines[k].productId], Deduced(lines[k], m[lines[k].productId]))
    ensures Check(Join(lines, m)).value.available ==>
      forall k :: 0 <= k < |lines| ==> Quantity(m[lines[k].productId]) >= Deduced(lines[k], m[lines[k].productId])
  {
    var joined := Join(lines, m);
    var plan := Plan(joined);
    assert plan.Some?;
    forall k | 0 <= k < |lines|
      ensures lines[k].productId in m
    {
      assert joined[k].product.Some?;
    }
  }

  /** The deduction writes of a plan built from `m`, one line per product, land on
      exactly the listed products. */
  lemma {:induction false} DeductWritesLand(lines: seq<BomLine>, m: map<Id, Product>, planned: seq<PlannedLine>)
    requires DistinctProducts(lines) && |planned| == |lines|
    requires forall k :: 0 <= k < |lines| ==> lines[k].productId in m
    requires forall k :: 0 <= k < |lines| ==>
      planned[k] == PlannedLine(lines[k], m[lines[k].productId], Deduced(lines[k], m[lines[k].productId]))
    ensures forall k :: 0 <= k < |lines| ==>
      ApplyWrites(m, DeductWrites(planned))[lines[k].productId]
        == WithQuantity(m[lines[k].productId], Quantity(m[lines[k].productId]) - Deduced(lines[k], m[lines[k].productId]))
    ensures forall id :: id in m && Unlisted(lines, id) ==> ApplyWrites(m, DeductWrites(planned))[id] == m[id]
  {
    var ws := DeductWrites(planned);
    assert forall k :: 0 <= k < |lines| ==> ws[k].productId == lines[k].productId;
    assert DistinctWriteTargets(ws);
    forall k | 0 <= k < |lines|
      ensures ApplyWrites(m, ws)[lines[k].productId] == WithQuantity(m[lines[k].productId], ws[k].quantity)
    {
      WriteLands(m, ws, k);
    }
    forall id | id in m && Unlisted(lines, id)
      ensures ApplyWrites(m, ws)[id] == m[id]
    {
      assert NotWritten(ws, id);
      WriteMisses(m, ws, id);
    }
  }

  /** When the check passed on a bill of materials naming each product once, the deduct
      loop leaves each listed product at its checked quantity minus its deduced
      quantity, which is never negative, and leaves every other product unchanged. */
  lemma {:induction false} DeductionsExact(lines: seq<BomLine>, m: map<Id, Product>)
    requires DistinctProducts(lines)
    requires Check(Join(lines, m)).Success? && Check(Join(lines, m)).value.available
    ensures Deducted(lines, m).Keys == m.Keys
    ensures forall k :: 0 <= k < |lines| ==> lines[k].productId in m
    ensures forall k :: 0 <= k < |lines| ==>
      Deducted(lines, m)[lines[k].productId]
        == WithQuantity(m[lines[k].productId], Quantity(m[lines[k].productId]) - Deduced(lines[k], m[lines[k].productId]))
    ensures forall k :: 0 <= k < |lines| ==> Quantity(Deducted(lines, m)[lines[k].productId]) >= 0.0
    ensures forall id :: id in m && Unlisted(lines, id) ==> Deducted(lines, m)[id] == m[id]
  {
    CheckedPlan(lines, m);
    DeductWritesLand(lines, m, Check(Join(lines, m)).value.planned);
  }

  /** A bill of materials naming the same product twice: both lines are checked
      against the same quantity and both writes start from it, so only one deduction
      survives (5 in stock, two lines of 2 each: 3 remain, not 1). */
  lemma DuplicateLineDeductsOnce(p: Product, typeId: Id)
    requires p.currentQuantity == Some(5.0)
    ensures var line := BomLine(typeId, p.id, 2.0, false);
      var m := map[p.id := p];
      var c := Check(Join([line, line], m));
      && c.Success? && c.value.available
      && ApplyWrites(m, DeductWrites(c.value.planned))[p.id].currentQuantity == Some(3.0)
  {
    var line := BomLine(typeId, p.id, 2.0, false);
    var m := map[p.id := p];
    var planned := Check(Join([line, line], m)).value.planned;
    var ws := DeductWrites(planned);
    assert ws == [QuantityWrite(p.id, 3.0), QuantityWrite(p.id, 3.0)];
    assert ws[..1] == [QuantityWrite(p.id, 3.0)];
    assert ws[..1][..0] == [];
  }

  /** Adding a line's deduced quantity back to a row it was taken from restores the row. */
  lemma RestoreOne(p: Product, line: BomLine)
    requires p.currentQuantity.Some?
    ensures var after := WithQuantity(p, Quantity(p) - Deduced(line, p));
      WithQuantity(after, Quantity(after) + Deduced(line, after)) == p
  {
    var after := WithQuantity(p, Quantity(p) - Deduced(line, p));
    assert EffectiveFactor(after) == EffectiveFactor(p);
  }

  /** The facts `RestoreWritesUndo` assumes: `after` is `m` with each listed product
      deducted once, and `ws` restores each listed product from `after`. */
  predicate RestoresDeduction(m: map<Id, Product>, after: map<Id, Product>, lines: seq<BomLine>, ws: seq<QuantityWrite>) {
    && DistinctProducts(lines) && |ws| == |lines| && after.Keys == m.Keys
    && (forall id :: id in m ==> m[id].currentQuantity.Some?)
    && (forall k :: 0 <= k < |lines| ==> lines[k].productId in m)
    && (forall k :: 0 <= k < |lines| ==>
         after[lines[k].productId] == WithQuantity(m[lines[k].productId],
                                                   Quantity(m[lines[k].productId]) - Deduced(lines[k], m[lines[k].productId])))
    && (forall k :: 0 <= k < |lines| ==>
         ws[k] == QuantityWrite(lines[k].productId, Quantity(after[lines[k].productId]) + Deduced(lines[k], after[lines[k].productId])))
    && (forall id :: id in m && Unlisted(lines, id) ==> after[id] == m[id])
  }

  lemma RestoredListedRow(m: map<Id, Product>, after: map<Id, Product>, lines: seq<BomLine>, ws: seq<QuantityWrite>, k: nat)
    requires RestoresDeduction(m, after, lines, ws) && k < |lines|
    ensures ApplyWrites(after, ws)[lines[k].productId] == m[lines[k].productId]
  {
    var id := lines[k].productId;
    var p := m[id];
    var a := WithQuantity(p, Quantity(p) - Deduced(lines[k], p));
    assert after[id] == a;
    assert ws[k] == QuantityWrite(id, Quantity(a) + Deduced(lines[k], a));
    TargetsFollowLines(lines, ws);
    WriteLands(after, ws, k);
    RestoreOne(p, lines[k]);
  }

  /** Writes aimed, one each, at the products of distinct lines have distinct targets. */
  lemma TargetsFollowLines(lines: seq<BomLine>, ws: seq<QuantityWrite>)
    requires DistinctProducts(lines) && |ws| == |lines|
    requires forall k :: 0 <= k < |lines| ==> ws[k].productId == lines[k].productId
    ensures DistinctWriteTargets(ws)
  {
  }

  lemma RestoredRow(m: map<Id, Product>, after: map<Id, Product>, lines: seq<BomLine>, ws: seq<QuantityWrite>, id: Id)
    requires RestoresDeduction(m, after, lines, ws) && id in m
    ensures ApplyWrites(after, ws)[id] == m[id]
  {
    if k :| 0 <= k < |lines| && lines[k].productId == id {
      RestoredListedRow(m, after, lines, ws, k);
    } else {
      assert NotWritten(ws, id);
      WriteMisses(after, ws, id);
    }
  }

  /** Restore writes computed from a table the deductions produced bring every
      listed product back, and the unlisted ones were never touched. */
  lemma RestoreWritesUndo(m: map<Id, Product>, after: map<Id, Product>, lines: seq<BomLine>, ws: seq<QuantityWrite>)
    requires RestoresDeduction(m, after, lines, ws)
    ensures ApplyWrites(after, ws) == m
  {
    forall id | id in m
      ensures ApplyWrites(after, ws)[id] == m[id]
    {
      RestoredRow(m, after, lines, ws, id);
    }
  }

  /** Joining lines whose products all exist, and the restore writes of that join. */
  lemma JoinedRestore(lines: seq<BomLine>, t: map<Id, Product>)
    requires forall k :: 0 <= k < |lines| ==> lines[k].productId in t
    ensures forall k :: 0 <= k < |lines| ==> Join(lines, t)[k].product.Some?
    ensures forall k :: 0 <= k < |lines| ==>
      RestoreWrites(Join(lines, t))[k]
        == QuantityWrite(lines[k].productId, Quantity(t[lines[k].productId]) + Deduced(lines[k], t[lines[k].productId]))
  {
  }

  /** Deleting a service whose bill of materials and conversion factors are unchanged
      since it was recorded restores every product exactly (quantities stored as
      non-null values). */
  lemma {:induction false} DeleteUndoesCreate(lines: seq<BomLine>, m: map<Id, Product>)
    requires DistinctProducts(lines)
    requires Check(Join(lines, m)).Success? && Check(Join(lines, m)).value.available
    requires forall id :: id in m ==> m[id].currentQuantity.Some?
    ensures forall k :: 0 <= k < |lines| ==> Join(lines, Deducted(lines, m))[k].product.Some?
    ensures ApplyWrites(Deducted(lines, m), RestoreWrites(Join(lines, Deducted(lines, m)))) == m
  {
    var after := Deducted(lines, m);
    DeductionsExact(lines, m);
    JoinedRestore(lines, after);
    var ws := RestoreWrites(Join(lines, after));
    assert RestoresDeduction(m, after, lines, ws);
    RestoreWritesUndo(m, after, lines, ws);
  }

  /** Restoration uses the bill of materials of deletion time: after the line is edited
      from 2 to 3 units, deleting the service puts back 3 (5 in stock becomes 6). */
  lemma EditedBillRestoresNewAmount(p: Product, typeId: Id)
    requires p.currentQuantity == Some(5.0)
    ensures var m := map[p.id := p];
      var c := Check(Join([BomLine(typeId, p.id, 2.0, false)], m));
      && c.Success? && c.value.available
      && var after := ApplyWrites(m, DeductWrites(c.value.planned));
         var joined := Join([BomLine(typeId, p.id, 3.0, false)], after);
         && joined[0].product.Some?
         && ApplyWrites(after, RestoreWrites(joined))[p.id].currentQuantity == Some(6.0)
  {
    var m := map[p.id := p];
    var c := Check(Join([BomLine(typeId, p.id, 2.0, false)], m));
    var ws := DeductWrites(c.value.planned);
    assert ws == [QuantityWrite(p.id, 3.0)];
    assert ws[..0] == [];
    var after := ApplyWrites(m, ws);
    var joined := Join([BomLine(typeId, p.id, 3.0, false)], after);
    var rs := RestoreWrites(joined);
    assert rs == [QuantityWrite(p.id, 6.0)];
    assert rs[..0] == [];
  }

  /** Price 50, one line of 2 units of a product holding only 1: the check fails and
      reports (name, required 2, available 1). */
  lemma InsufficientScenario(p: Product, typeId: Id)
    requires p.currentQuantity == Some(1.0)
    ensures var c := Check(Join([BomLine(typeId, p.id, 2.0, false)], map[p.id := p]));
      c.Success? && !c.value.available && c.value.insufficient == [Shortfall(p.name, 2.0, Some(1.0))]
  {
  }

  /** The same line with 5 in stock at 3 per unit: the check passes, the material cost
      is 6 and the product drops to 3. */
  lemma SufficientScenario(p: Product, typeId: Id)
    requires p.currentQuantity == Some(5.0) && p.lastUnitCost == Some(3.0)
    ensures var m := map[p.id := p];
      var c := Check(Join([BomLine(typeId, p.id, 2.0, false)], m));
      && c.Success? && c.value.available
      && ProductCost(c.value.planned) == 6.0
      && ApplyWrites(m, DeductWrites(c.value.planned))[p.id].currentQuantity == Some(3.0)
  {
    var m := map[p.id := p];
    var c := Check(Join([BomLine(typeId, p.id, 2.0, false)], m));
    var ws := DeductWrites(c.value.planned);
    assert ws == [QuantityWrite(p.id, 3.0)];
    assert ws[..0] == [];
  }

  /** The list with service `id` removed, the others in order. */
  function WithoutService(ss: seq<Service>, id: Id): (r: seq<Service>)
    ensures forall s :: s in r <==> s in ss && s.id != id
  {
    Filter(ss, (s: Service) => s.id != id)
  }

  /** Deleting a cached service removes that one entry; the others keep their order. */
  lemma RemovesOnlyThatService(a: seq<Service>, s: Service, b: seq<Service>)
    requires forall k :: 0 <= k < |a| ==> a[k].id != s.id
    requires forall k :: 0 <= k < |b| ==> b[k].id != s.id
    ensures WithoutService(a + [s] + b, s.id) == a + b
  {
    FilterDropsOne(a, s, b, (x: Service) => x.id != s.id);
  }

  /** The errors `createService` reports before it writes anything. */
  predicate BeforeWrites(e: Error) {
    || e.InsufficientStock? || e == StoreFailed(ReadLines) || e == MissingProduct
    || e == StoreFailed(ReadServiceType) || e == StoreFailed(InsertService)
  }

  /** The errors `createService` reports after the service row is in. */
  predicate DuringWrites(e: Error) {
    e == StoreFailed(UpdateProduct) || e == StoreFailed(InsertRecord)
  }

  /** What the deduct loop of `createService` leaves behind: all writes, or the first
      `applied` of them when an update fails. */
  predicate WritesOutcome(writes: seq<QuantityWrite>, ok: bool, applied: nat, before: map<Id, Product>, after: map<Id, Product>) {
    if ok then after == ApplyWrites(before, writes)
    else applied < |writes| && after == ApplyWrites(before, writes[..applied])
  }

  /** What the restore loop of `deleteService` leaves behind: it stops at the first
      missing product or failed update, after the writes of the lines before it. */
  predicate RestoreOutcome(joined: seq<JoinedLine>, r: Result<(), Error>, applied: nat,
                           before: map<Id, Product>, after: map<Id, Product>) {
    if r.Success? then
      && (forall k :: 0 <= k < |joined| ==> joined[k].product.Some?)
      && after == ApplyWrites(before, RestoreWrites(joined))
    else
      && (r.error == MissingProduct || r.error == StoreFailed(UpdateProduct))
      && applied < |joined|
      && (forall k :: 0 <= k < applied ==> joined[k].product.Some?)
      && (r.error == MissingProduct <==> joined[applied].product.None?)
      && after == ApplyWrites(before, RestoreWrites(joined[..applied]))
  }

  /** The service row `createService` inserts: the check passed, the type exists, and
      the new row freezes the type's price and the check's material cost. */
  predicate Opened(input: ServiceInput, checked: Result<StockCheck, Error>, id: Id, types: map<Id, ServiceType>,
                   before: map<Id, Service>, after: map<Id, Service>) {
    && checked.Success? && checked.value.available
    && input.serviceTypeId in types
    && id !in before
    && after == before[id := Service(id, input.clientName, input.serviceTypeId, input.date, input.notes,
                                     types[input.serviceTypeId].price, ProductCost(checked.value.planned))]
  }

  /** The service list shared by every user of the hook (`globalServices`). */
  class ServiceList {
    const db: Database
    var services: seq<Service>

    constructor (db: Database)
      ensures this.db == db && services == []
    {
      this.db := db;
      services := [];
    }

    /** `checkStockAvailability(serviceTypeId)`: one read of the bill of materials with
        products joined, then the pure check. */
    method CheckStockAvailability(typeId: Id) returns (r: Result<StockCheck, Error>)
      ensures r == Failure(StoreFailed(ReadLines)) || r == CheckFor(db.lines, db.products, typeId)
    {
      var joined := db.SelectLines(typeId);
      if joined.None? {
        return Failure(StoreFailed(ReadLines));
      }
      r := Check(joined.value);
    }

    /** The deduct loop of `createService`: the writes in order, stopping at the first
        failed update; `applied` counts the writes made before it. */
    method WriteQuantities(writes: seq<QuantityWrite>) returns (ok: bool, ghost applied: nat)
      modifies db`products
      ensures WritesOutcome(writes, ok, applied, old(db.products), db.products)
    {
      applied := 0;
      var i := 0;
      while i < |writes|
        invariant 0 <= i <= |writes|
        invariant db.products == ApplyWrites(old(db.products), writes[..i])
      {
        ok := db.UpdateQuantity(writes[i].productId, writes[i].quantity);
        if !ok {
          applied := i;
          return;
        }
        assert writes[..i + 1][..i] == writes[..i];
        i := i + 1;
      }
      assert writes[..i] == writes;
      ok := true;
    }

    /** The first steps of `createService`: check the stock, read the type's price and
        insert the service with price and material cost frozen. `checked` is the stock
        check the call saw; `planned` its planned lines. */
    method OpenService(input: ServiceInput)
      returns (r: Result<Service, Error>, planned: seq<PlannedLine>, ghost checked: Result<StockCheck, Error>)
      modifies db`services
      ensures r != Failure(StoreFailed(ReadLines)) ==> checked == CheckFor(db.lines, old(db.products), input.serviceTypeId)
      ensures checked.Failure? ==> r == Failure(StoreFailed(ReadLines)) || r == Failure(MissingProduct)
      ensures checked.Success? && !checked.value.available ==>
        r == Failure(StoreFailed(ReadLines)) || r == Failure(InsufficientStock(checked.value.insufficient))
      ensures r.Failure? ==> BeforeWrites(r.error) && db.services == old(db.services)
      ensures r.Success? ==>
        && Opened(input, checked, r.value.id, db.serviceTypes, old(db.services), db.services)
        && r.value == db.services[r.value.id]
        && planned == checked.value.planned
    {
      planned := [];
      var result := CheckStockAvailability(input.serviceTypeId);
      checked := result;
      if result.Failure? {
        return Failure(result.error), planned, checked;
      }
      var check := result.value;
      if !check.available {
        return Failure(InsufficientStock(check.insufficient)), planned, checked;
      }
      var serviceType := db.ReadServiceType(input.serviceTypeId);
      if serviceType.None? {
        return Failure(StoreFailed(ReadServiceType)), planned, checked;
      }
      var inserted := db.InsertService(input, serviceType.value.price, ProductCost(check.planned));
      if inserted.None? {
        return Failure(StoreFailed(InsertService)), planned, checked;
      }
      planned := check.planned;
      r := Success(inserted.value);
    }

    /** `createService`: check, read the type's price, insert the service with price and
        material cost frozen, deduct each line from its checked quantity, post the income,
        then put the service at the front of the list. `checked` is the stock check the
        call saw, `id` the new row's identifier; on a failed deduction `applied` is the
        number of lines already written. */
    method CreateService(input: ServiceInput)
      returns (r: Result<Service, Error>, ghost checked: Result<StockCheck, Error>, ghost id: Id, ghost applied: nat)
      modifies this`services, db`services, db`products, db`records
      ensures r.Failure? ==> BeforeWrites(r.error) || DuringWrites(r.error)
      ensures r != Failure(StoreFailed(ReadLines)) ==> checked == CheckFor(old(db.lines), old(db.products), input.serviceTypeId)
      // rejected or failed before any write
      ensures checked.Failure? ==> r == Failure(StoreFailed(ReadLines)) || r == Failure(MissingProduct)
      ensures checked.Success? && !checked.value.available ==>
        r == Failure(StoreFailed(ReadLines)) || r == Failure(InsufficientStock(checked.value.insufficient))
      ensures r.Failure? && !DuringWrites(r.error) ==>
        db.services == old(db.services) && db.products == old(db.products) && db.records == old(db.records)
      // the service row exists from the deduct loop on
      ensures r.Success? || DuringWrites(r.error) ==>
        && Opened(input, checked, id, old(db.serviceTypes), old(db.services), db.services)
        && WritesOutcome(DeductWrites(checked.value.planned), r != Failure(StoreFailed(UpdateProduct)), applied,
                         old(db.products), db.products)
      ensures r.Failure? && DuringWrites(r.error) ==> db.records == old(db.records)
      ensures r.Success? ==> r.value.id == id && r.value == db.services[id]
      ensures r.Success? ==>
        db.records == old(db.records) + [ServiceIncome(id, old(db.serviceTypes)[input.serviceTypeId].price, input.date)]
      ensures r.Success? ==> services == [r.value] + old(services)
      ensures r.Failure? ==> services == old(services)
    {
      id, applied := 0, 0;
      var started, planned;
      started, planned, checked := OpenService(input);
      if started.Failure? {
        return Failure(started.error), checked, id, applied;
      }
      id := started.value.id;
      r, applied := FinishService(started.value, planned, input.date);
    }

    /** The last steps of `createService`, once the service row is in: deduct each
        planned line, post the income, then put the service at the front of the list. */
    method FinishService(service: Service, planned: seq<PlannedLine>, date: Date)
      returns (r: Result<Service, Error>, ghost applied: nat)
      modifies this`services, db`products, db`records
      ensures r.Failure? ==> DuringWrites(r.error) && db.records == old(db.records) && services == old(services)
      ensures WritesOutcome(DeductWrites(planned), r != Failure(StoreFailed(UpdateProduct)), applied,
                            old(db.products), db.products)
      ensures r.Success? ==> r.value == service
                             && db.records == old(db.records) + [ServiceIncome(service.id, service.price, date)]
                             && services == [service] + old(services)
    {
      var ok;
      ok, applied := WriteQuantities(DeductWrites(planned));
      if !ok {
        return Failure(StoreFailed(UpdateProduct)), applied;
      }
      ok := db.InsertRecord(ServiceIncome(service.id, service.price, date));
      if !ok {
        return Failure(StoreFailed(InsertRecord)), applied;
      }
      services := [service] + services;
      r := Success(service);
    }

    /** The restore loop of `deleteService`: for each joined line in order, fail on a
        missing product, otherwise write its quantity plus the deduced quantity; `applied`
        counts the writes made before a failure. */
    method RestoreQuantities(joined: seq<JoinedLine>) returns (r: Result<(), Error>, ghost applied: nat)
      modifies db`products
      ensures RestoreOutcome(joined, r, applied, old(db.products), db.products)
    {
      applied := 0;
      var i := 0;
      while i < |joined|
        invariant 0 <= i <= |joined|
        invariant forall k :: 0 <= k < i ==> joined[k].product.Some?
        invariant db.products == ApplyWrites(old(db.products), RestoreWrites(joined[..i]))
      {
        if joined[i].product.None? {
          applied := i;
          return Failure(MissingProduct), applied;
        }
        var w := RestoreWrite(joined[i]);
        var ok := db.UpdateQuantity(w.productId, w.quantity);
        if !ok {
          applied := i;
          return Failure(StoreFailed(UpdateProduct)), applied;
        }
        assert RestoreWrites(joined[..i + 1])[..i] == RestoreWrites(joined[..i]);
        i := i + 1;
      }
      assert joined[..i] == joined;
      r := Success(());
    }

    /** The last steps of `deleteService`: the best-effort finance cleanup, the row
        delete and the list update. */
    method RemoveService(id: Id) returns (ok: bool)
      modifies this`services, db`services, db`records
      ensures db.records == old(db.records) || db.records == Unreferenced(old(db.records), ServiceRef, id)
      ensures ok ==> db.services == old(db.services) - {id} && services == WithoutService(old(services), id)
      ensures !ok ==> db.services == old(db.services) && services == old(services)
    {
      var financeOk := db.DeleteRecordsFor(ServiceRef, id);
      ok := db.DeleteService(id);
      if ok {
        services := WithoutService(services, id);
      }
    }

    /** `deleteService(id, service)`: reload the type's *current* bill of materials, add
        each line's deduced quantity back to the quantity just read, delete the paired
        income on a best-effort basis, delete the service row, then drop it from the list.
        `joined` is the bill of materials the call read; on a failed restore `applied` is
        the number of lines already written. */
    method DeleteService(id: Id, service: Service) returns (r: Result<(), Error>, ghost joined: seq<JoinedLine>, ghost applied: nat)
      modifies this`services, db`services, db`products, db`records
      ensures r.Failure? ==> r.error in {StoreFailed(ReadLines), MissingProduct, StoreFailed(UpdateProduct), StoreFailed(DeleteServiceRow)}
      ensures r != Failure(StoreFailed(ReadLines)) ==>
        joined == Join(LinesOf(old(db.lines), service.serviceTypeId), old(db.products))
      ensures r == Failure(StoreFailed(ReadLines)) ==> db.products == old(db.products)
      ensures r != Failure(StoreFailed(ReadLines)) ==>
        RestoreOutcome(joined, if r == Failure(StoreFailed(DeleteServiceRow)) then Success(()) else r, applied,
                       old(db.products), db.products)
      ensures r.Failure? && r.error != StoreFailed(DeleteServiceRow) ==>
        db.records == old(db.records) && db.services == old(db.services) && services == old(services)
      ensures r.Success? || r == Failure(StoreFailed(DeleteServiceRow)) ==>
        db.records == old(db.records) || db.records == Unreferenced(old(db.records), ServiceRef, id)
      ensures r == Failure(StoreFailed(DeleteServiceRow)) ==> db.services == old(db.services) && services == old(services)
      ensures r.Success? ==> db.services == old(db.services) - {id} && services == WithoutService(old(services), id)
    {
      applied, joined := 0, [];
      var selected := db.SelectLines(service.serviceTypeId);
      if selected.None? {
        return Failure(StoreFailed(ReadLines)), joined, applied;
      }
      joined := selected.value;
      var restored;
      restored, applied := RestoreQuantities(selected.value);
      assert joined == selected.value;
      if restored.Failure? {
        return restored, joined, applied;
      }
      var ok := RemoveService(id);
      r := if ok then Success(()) else Failure(StoreFailed(DeleteServiceRow));
    }
  }
}
