/** Service types and their bills of materials: creation with its lines, the
    delete-all-then-insert replacement of the lines on update, and deletion with the
    cache kept in step. */
module ServiceTypes {
  import opened Common
  import opened Ledger

  /** One entry of the product list a caller passes: `use_unit_system` may be absent. */
  datatype LineInput = LineInput(productId: Id, defaultQuantity: real, useUnitSystem: Option<bool>)

  /** The `service_products` rows built from the product list, one per entry, in order;
      `use_unit_system || false` turns an absent flag into false. */
  function ToLines(typeId: Id, inputs: seq<LineInput>): (r: seq<BomLine>)
    ensures |r| == |inputs|
    ensures forall k :: 0 <= k < |r| ==>
      r[k].serviceTypeId == typeId && r[k].productId == inputs[k].productId
      && r[k].defaultQuantity == inputs[k].defaultQuantity
      && (r[k].useUnitSystem <==> inputs[k].useUnitSystem == Some(true))
  {
    seq(|inputs|, k requires 0 <= k < |inputs| =>
      BomLine(typeId, inputs[k].productId, inputs[k].defaultQuantity, inputs[k].useUnitSystem == Some(true)))
  }

  /** An entry that does not say whether to use the unit system yields a line that does not. */
  lemma UnitSystemDefaultsOff(typeId: Id, inputs: seq<LineInput>, k: int)
    requires 0 <= k < |inputs| && inputs[k].useUnitSystem.None?
    ensures !ToLines(typeId, inputs)[k].useUnitSystem
  {
  }

  /** `LinesOf` distributes over appending rows to the table. */
  lemma {:induction false} LinesOfAppend(a: seq<BomLine>, b: seq<BomLine>, typeId: Id)
    ensures LinesOf(a + b, typeId) == LinesOf(a, typeId) + LinesOf(b, typeId)
  {
    FilterAppend(a, b, (l: BomLine) => l.serviceTypeId == typeId);
  }

  /** No line of a type survives the deletion of that type's lines. */
  lemma {:induction false} NoneLeftAfterDelete(lines: seq<BomLine>, typeId: Id)
    ensures LinesOf(LinesNotOf(lines, typeId), typeId) == []
  {
    var kept := LinesNotOf(lines, typeId);
    assert forall k :: 0 <= k < |kept| ==> kept[k] in kept;
    FilterNone(kept, (l: BomLine) => l.serviceTypeId == typeId);
  }

  /** Deleting one type's lines leaves another type's lines exactly as they were. */
  lemma {:induction false} DeleteKeepsOtherType(lines: seq<BomLine>, typeId: Id, other: Id)
    requires other != typeId
    ensures LinesOf(LinesNotOf(lines, typeId), other) == LinesOf(lines, other)
  {
    if lines != [] {
      DeleteKeepsOtherType(lines[1..], typeId, other);
      assert lines == [lines[0]] + lines[1..];
      LinesOfAppend([lines[0]], lines[1..], other);
      FilterAppend([lines[0]], lines[1..], (l: BomLine) => l.serviceTypeId != typeId);
      assert [lines[0]][1..] == [];
      if lines[0].serviceTypeId == typeId {
        assert LinesNotOf(lines, typeId) == LinesNotOf(lines[1..], typeId);
      } else {
        assert LinesNotOf(lines, typeId) == [lines[0]] + LinesNotOf(lines[1..], typeId);
        LinesOfAppend([lines[0]], LinesNotOf(lines[1..], typeId), other);
      }
    }
  }

  /** The rows built for a type are all that type's, in order. */
  lemma ToLinesAreOfType(typeId: Id, inputs: seq<LineInput>)
    ensures LinesOf(ToLines(typeId, inputs), typeId) == ToLines(typeId, inputs)
  {
    FilterAll(ToLines(typeId, inputs), (l: BomLine) => l.serviceTypeId == typeId);
  }

  /** The rows built for a type contain none of another type. */
  lemma ToLinesNotOther(typeId: Id, inputs: seq<LineInput>, other: Id)
    requires other != typeId
    ensures LinesOf(ToLines(typeId, inputs), other) == []
  {
    FilterNone(ToLines(typeId, inputs), (l: BomLine) => l.serviceTypeId == other);
  }

  /** After the replacement, the type's bill of materials is exactly the new list:
      none of its old lines survive. */
  lemma ReplacedLinesExact(lines: seq<BomLine>, typeId: Id, inputs: seq<LineInput>)
    ensures LinesOf(LinesNotOf(lines, typeId) + ToLines(typeId, inputs), typeId) == ToLines(typeId, inputs)
  {
    LinesOfAppend(LinesNotOf(lines, typeId), ToLines(typeId, inputs), typeId);
    NoneLeftAfterDelete(lines, typeId);
    ToLinesAreOfType(typeId, inputs);
  }

  /** The replacement leaves the bill of materials of every other type unchanged. */
  lemma ReplaceKeepsOtherTypes(lines: seq<BomLine>, typeId: Id, inputs: seq<LineInput>, other: Id)
    requires other != typeId
    ensures LinesOf(LinesNotOf(lines, typeId) + ToLines(typeId, inputs), other) == LinesOf(lines, other)
  {
    LinesOfAppend(LinesNotOf(lines, typeId), ToLines(typeId, inputs), other);
    DeleteKeepsOtherType(lines, typeId, other);
    ToLinesNotOther(typeId, inputs, other);
  }

  /** A newly created type's bill of materials is exactly the list it was created with. */
  lemma CreatedLinesExact(lines: seq<BomLine>, types: map<Id, ServiceType>, id: Id, inputs: seq<LineInput>)
    requires LinesReferenceTypes(lines, types) && id !in types
    ensures LinesOf(lines + ToLines(id, inputs), id) == ToLines(id, inputs)
  {
    LinesOfAppend(lines, ToLines(id, inputs), id);
    ToLinesAreOfType(id, inputs);
    FilterNone(lines, (l: BomLine) => l.serviceTypeId == id);
  }

  /** The cache after deleting a service type (`filter(s => s.id !== id)`). */
  function WithoutType(ts: seq<ServiceType>, id: Id): (r: seq<ServiceType>)
    ensures forall t :: t in r <==> t in ts && t.id != id
  {
    Filter(ts, (t: ServiceType) => t.id != id)
  }

  /** Deleting a cached type removes that one entry; the others keep their order. */
  lemma RemovesOnlyThatType(a: seq<ServiceType>, t: ServiceType, b: seq<ServiceType>)
    requires forall k :: 0 <= k < |a| ==> a[k].id != t.id
    requires forall k :: 0 <= k < |b| ==> b[k].id != t.id
    ensures WithoutType(a + [t] + b, t.id) == a + b
  {
    FilterDropsOne(a, t, b, (s: ServiceType) => s.id != t.id);
  }

  /** The service-type hook: the store and the cached list of types. */
  class ServiceTypeList {
    const db: Database
    var types: seq<ServiceType>

    constructor (db: Database)
      ensures this.db == db && types == []
    {
      this.db := db;
      types := [];
    }

    /** Inserts the type row, then its lines in one batch when the list is non-empty. */
    method CreateServiceType(name: string, price: real, products: seq<LineInput>)
      returns (r: Result<ServiceType, Error>, ghost id: Id)
      modifies db`serviceTypes, db`lines
      ensures r.Failure? ==> r.error == StoreFailed(InsertType) || r.error == StoreFailed(InsertLines)
      ensures r == Failure(StoreFailed(InsertType)) ==>
        db.serviceTypes == old(db.serviceTypes) && db.lines == old(db.lines)
      ensures r != Failure(StoreFailed(InsertType)) ==>
        id !in old(db.serviceTypes) && db.serviceTypes == old(db.serviceTypes)[id := ServiceType(id, name, price)]
      ensures r == Failure(StoreFailed(InsertLines)) ==> products != [] && db.lines == old(db.lines)
      ensures r.Success? ==> r.value == ServiceType(id, name, price)
                             && db.lines == old(db.lines) + ToLines(id, products)
      ensures old(LinesReferenceTypes(db.lines, db.serviceTypes)) ==> LinesReferenceTypes(db.lines, db.serviceTypes)
      ensures r.Success? && old(LinesReferenceTypes(db.lines, db.serviceTypes)) ==>
        LinesOf(db.lines, id) == ToLines(id, products)
    {
      var inserted := db.InsertServiceType(name, price);
      if inserted.None? {
        return Failure(StoreFailed(InsertType)), 0;
      }
      var t := inserted.value;
      id := t.id;
      if |products| > 0 {
        var ok := db.InsertLines(ToLines(t.id, products));
        if !ok {
          return Failure(StoreFailed(InsertLines)), id;
        }
      } else {
        assert ToLines(t.id, products) == [];
        assert db.lines == old(db.lines) + [];
      }
      if LinesReferenceTypes(old(db.lines), old(db.serviceTypes)) {
        CreatedLinesExact(old(db.lines), old(db.serviceTypes), id, products);
      }
      r := Success(t);
    }

    /** Overwrites name and price, deletes every line of the type, then inserts the new
        list when it is non-empty. */
    method UpdateServiceType(id: Id, name: string, price: real, products: seq<LineInput>)
      returns (r: Result<(), Error>)
      modifies db`serviceTypes, db`lines
      ensures r.Failure? ==> r.error == StoreFailed(UpdateType) || r.error == StoreFailed(DeleteLines)
                             || r.error == StoreFailed(InsertLines)
      ensures r == Failure(StoreFailed(UpdateType)) ==>
        db.serviceTypes == old(db.serviceTypes) && db.lines == old(db.lines)
      ensures r != Failure(StoreFailed(UpdateType)) ==>
        db.serviceTypes == if id in old(db.serviceTypes)
                           then old(db.serviceTypes)[id := old(db.serviceTypes)[id].(name := name, price := price)]
                           else old(db.serviceTypes)
      ensures r == Failure(StoreFailed(DeleteLines)) ==> db.lines == old(db.lines)
      ensures r == Failure(StoreFailed(InsertLines)) ==>
        products != [] && db.lines == LinesNotOf(old(db.lines), id)
      ensures r.Success? ==> db.lines == LinesNotOf(old(db.lines), id) + ToLines(id, products)
      ensures r.Success? ==> LinesOf(db.lines, id) == ToLines(id, products)
      ensures products != [] && id !in old(db.serviceTypes) ==> r.Failure?
      ensures old(LinesReferenceTypes(db.lines, db.serviceTypes)) ==> LinesReferenceTypes(db.lines, db.serviceTypes)
    {
      var ok := db.UpdateServiceType(id, name, price);
      if !ok {
        return Failure(StoreFailed(UpdateType));
      }
      ok := db.DeleteLinesOf(id);
      if !ok {
        return Failure(StoreFailed(DeleteLines));
      }
      if |products| > 0 {
        assert ToLines(id, products)[0].serviceTypeId == id;
        ok := db.InsertLines(ToLines(id, products));
        if !ok {
          return Failure(StoreFailed(InsertLines));
        }
      } else {
        assert ToLines(id, products) == [];
        assert db.lines == db.lines + [];
      }
      ReplacedLinesExact(old(db.lines), id, products);
      r := Success(());
    }

    /** Deletes the type row (its lines go by cascade), then drops it from the cache. */
    method DeleteServiceType(id: Id) returns (r: Result<(), Error>)
      modifies this`types, db`serviceTypes, db`lines
      ensures r.Failure? ==> r.error == StoreFailed(DeleteTypeRow)
                             && db.serviceTypes == old(db.serviceTypes) && db.lines == old(db.lines)
                             && types == old(types)
      ensures r.Success? ==> db.serviceTypes == old(db.serviceTypes) - {id}
                             && db.lines == LinesNotOf(old(db.lines), id)
                             && types == WithoutType(old(types), id)
      ensures old(LinesReferenceTypes(db.lines, db.serviceTypes)) ==> LinesReferenceTypes(db.lines, db.serviceTypes)
    {
      var ok := db.DeleteServiceType(id);
      if !ok {
        return Failure(StoreFailed(DeleteTypeRow));
      }
      types := WithoutType(types, id);
      r := Success(());
    }
  }
}
