/** The rows of the five tables the handlers read and write, and the
    request bodies that carry new values for them. */
module Tables {
  import opened Common

  /** A toner or a drum: both tables have the same columns. */
  datatype Supply = Supply(id: Uuid, name: string, stock: Option<I32>, price: Option<Decimal>)

  type Toner = Supply
  type Drum = Supply

  datatype Brand = Brand(id: Uuid, name: string)

  /** A printer and the brand, toner and drum it is assigned. */
  datatype Printer = Printer(id: Uuid, name: string, model: string, brand: Uuid, toner: Uuid, drum: Uuid)

  /** A ledger row: exactly the columns the movement handlers insert. */
  datatype Movement = Movement(
    id: Uuid,
    printerId: Uuid,
    tonerId: Option<Uuid>,
    drumId: Option<Uuid>,
    quantity: I32,
    createdAt: Timestamp)

  /** Body of a create request for a toner or a drum. */
  datatype CreateSupplyRequest = CreateSupplyRequest(name: string, stock: Option<I32>, price: Option<Decimal>)

  /** Body of an update request for a toner or a drum: every column is optional. */
  datatype UpdateSupplyRequest = UpdateSupplyRequest(
    id: Uuid, name: Option<string>, stock: Option<I32>, price: Option<Decimal>)

  type CreateTonerRequest = CreateSupplyRequest
  type UpdateTonerRequest = UpdateSupplyRequest
  type CreateDrumRequest = CreateSupplyRequest
  type UpdateDrumRequest = UpdateSupplyRequest

  /** A table is keyed by its rows' own ids. */
  ghost predicate SuppliesKeyed(m: map<Uuid, Supply>) {
    forall k :: k in m ==> m[k].id == k
  }

  ghost predicate BrandsKeyed(m: map<Uuid, Brand>) {
    forall k :: k in m ==> m[k].id == k
  }

  ghost predicate PrintersKeyed(m: map<Uuid, Printer>) {
    forall k :: k in m ==> m[k].id == k
  }

  ghost predicate MovementsKeyed(m: map<Uuid, Movement>) {
    forall k :: k in m ==> m[k].id == k
  }

  /** Some row of the table has exactly this name. */
  predicate SupplyNameTaken(m: map<Uuid, Supply>, name: string) {
    exists k :: k in m && m[k].name == name
  }

  /** Some row other than `self` has exactly this name. */
  predicate SupplyNameTakenByOther(m: map<Uuid, Supply>, self: Uuid, name: string) {
    exists k :: k in m && k != self && m[k].name == name
  }

  /** The row after the successive per-column UPDATEs of a toner or drum
      update: each supplied column is overwritten, the rest kept. */
  function PatchSupply(s: Supply, req: UpdateSupplyRequest): (r: Supply)
    ensures r.id == s.id
    ensures r.name == (if req.name.Some? then req.name.value else s.name)
    ensures r.stock == (if req.stock.Some? then req.stock else s.stock)
    ensures r.price == (if req.price.Some? then req.price else s.price)
    ensures req.name.None? && req.stock.None? && req.price.None? ==> r == s
  {
    var named := if req.name.Some? then s.(name := req.name.value) else s;
    var stocked := if req.stock.Some? then named.(stock := req.stock) else named;
    if req.price.Some? then stocked.(price := req.price) else stocked
  }

  /** The increment stays within the `i32` column (otherwise the statement fails). */
  predicate StockAddFits(m: map<Uuid, Supply>, id: Uuid, q: I32) {
    id in m && m[id].stock.Some? ==> I32_MIN <= m[id].stock.value + q <= I32_MAX
  }

  /** `UPDATE .. SET stock = stock + q WHERE id = $id` on a toner or drum
      table: SQL addition, so a NULL stock stays NULL, and an id that names
      no row changes nothing. */
  function AddToStock(m: map<Uuid, Supply>, id: Uuid, q: I32): (r: map<Uuid, Supply>)
    requires StockAddFits(m, id, q)
    ensures r.Keys == m.Keys
    ensures forall k :: k in m && k != id ==> r[k] == m[k]
    ensures id in m ==> r[id].id == m[id].id && r[id].name == m[id].name && r[id].price == m[id].price
    ensures id in m ==> (r[id].stock.None? <==> m[id].stock.None?)
    ensures id in m && r[id].stock.Some? ==> r[id].stock.value == m[id].stock.value + q
  {
    if id in m then
      var s := m[id];
      var stock: Option<I32> := if s.stock.Some? then Some(s.stock.value + q) else None;
      m[id := s.(stock := stock)]
    else m
  }

  /** In a table keyed by its rows' own ids no two keys hold the same row,
      so listing the rows gives as many rows as counting the keys. */
  lemma {:induction false} KeyedRowsCount<T>(m: map<Uuid, T>, idOf: T -> Uuid)
    requires forall k :: k in m ==> idOf(m[k]) == k
    ensures |m.Values| == |m.Keys|
    decreases |m|
  {
    if m != map[] {
      var k :| k in m;
      var rest := m - {k};
      KeyedRowsCount(rest, idOf);
      assert m.Keys == rest.Keys + {k};
      assert m.Values == rest.Values + {m[k]} by {
        forall v | v in m.Values ensures v in rest.Values + {m[k]} {
          var j :| j in m && m[j] == v;
          if j != k { assert rest[j] == v; }
        }
        forall v | v in rest.Values ensures v in m.Values {
          var j :| j in rest && rest[j] == v;
          assert m[j] == v;
        }
      }
      assert m[k] !in rest.Values;
    }
  }
}
