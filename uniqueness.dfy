/** Uniqueness checks: is a name still free in one table. The check is not
    scoped by id: any row with the name counts, the caller's own included. */
module Uniqueness {
  import opened Common
  import opened Tables
  import opened ApiErrors
  import opened Database

  /** The shared shape of the four checks: a failed query is a database
      error, a row with the name is `AlreadyExists`. */
  function Verdict(online: bool, taken: bool): (r: Result<(), ApiError>)
    ensures r.Ok? <==> online && !taken
    ensures r == Err(DatabaseError) <==> !online
    ensures r == Err(AlreadyExists) <==> online && taken
  {
    if !online then Err(DatabaseError)
    else if taken then Err(AlreadyExists)
    else Ok(())
  }

  predicate BrandNameTaken(m: map<Uuid, Brand>, name: string) {
    exists k :: k in m && m[k].name == name
  }

  predicate PrinterNameTaken(m: map<Uuid, Printer>, name: string) {
    exists k :: k in m && m[k].name == name
  }

  function IsTonerUnique(db: Store, name: string): (r: Result<(), ApiError>)
    reads db
    ensures r.Ok? <==> db.online && forall k :: k in db.toners ==> db.toners[k].name != name
    ensures r == Err(DatabaseError) <==> !db.online
    ensures r == Err(AlreadyExists) <==> db.online && exists k :: k in db.toners && db.toners[k].name == name
  {
    Verdict(db.online, SupplyNameTaken(db.toners, name))
  }

  function IsDrumUnique(db: Store, name: string): (r: Result<(), ApiError>)
    reads db
    ensures r.Ok? <==> db.online && forall k :: k in db.drums ==> db.drums[k].name != name
    ensures r == Err(DatabaseError) <==> !db.online
    ensures r == Err(AlreadyExists) <==> db.online && exists k :: k in db.drums && db.drums[k].name == name
  {
    Verdict(db.online, SupplyNameTaken(db.drums, name))
  }

  function IsBrandUnique(db: Store, name: string): (r: Result<(), ApiError>)
    reads db
    ensures r.Ok? <==> db.online && forall k :: k in db.brands ==> db.brands[k].name != name
    ensures r == Err(DatabaseError) <==> !db.online
    ensures r == Err(AlreadyExists) <==> db.online && exists k :: k in db.brands && db.brands[k].name == name
  {
    Verdict(db.online, BrandNameTaken(db.brands, name))
  }

  function IsPrinterUnique(db: Store, name: string): (r: Result<(), ApiError>)
    reads db
    ensures r.Ok? <==> db.online && forall k :: k in db.printers ==> db.printers[k].name != name
    ensures r == Err(DatabaseError) <==> !db.online
    ensures r == Err(AlreadyExists) <==> db.online && exists k :: k in db.printers && db.printers[k].name == name
  {
    Verdict(db.online, PrinterNameTaken(db.printers, name))
  }

  /** Not scoped by id: a toner's own current name is reported as taken. */
  lemma OwnNameIsNotUnique(db: Store, id: Uuid)
    requires db.online && id in db.toners
    ensures IsTonerUnique(db, db.toners[id].name) == Err(AlreadyExists)
  {
  }
}
