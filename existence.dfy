/** Existence checks: does a row with this id exist in one table. */
module Existence {
  import opened Common
  import opened Tables
  import opened ApiErrors
  import opened Database

  /** The shared shape of the five checks: a failed query is a database
      error, an empty answer is `IdNotFound`. */
  function Verdict(online: bool, found: bool): (r: Result<(), ApiError>)
    ensures r.Ok? <==> online && found
    ensures r == Err(DatabaseError) <==> !online
    ensures r == Err(IdNotFound) <==> online && !found
  {
    if !online then Err(DatabaseError)
    else if !found then Err(IdNotFound)
    else Ok(())
  }

  function TonerExists(db: Store, id: Uuid): (r: Result<(), ApiError>)
    reads db
    ensures r.Ok? <==> db.online && id in db.toners
    ensures r == Err(DatabaseError) <==> !db.online
    ensures r == Err(IdNotFound) <==> db.online && id !in db.toners
  {
    Verdict(db.online, id in db.toners)
  }

  function DrumExists(db: Store, id: Uuid): (r: Result<(), ApiError>)
    reads db
    ensures r.Ok? <==> db.online && id in db.drums
    ensures r == Err(DatabaseError) <==> !db.online
    ensures r == Err(IdNotFound) <==> db.online && id !in db.drums
  {
    Verdict(db.online, id in db.drums)
  }

  function BrandExists(db: Store, id: Uuid): (r: Result<(), ApiError>)
    reads db
    ensures r.Ok? <==> db.online && id in db.brands
    ensures r == Err(DatabaseError) <==> !db.online
    ensures r == Err(IdNotFound) <==> db.online && id !in db.brands
  {
    Verdict(db.online, id in db.brands)
  }

  function PrinterExists(db: Store, id: Uuid): (r: Result<(), ApiError>)
    reads db
    ensures r.Ok? <==> db.online && id in db.printers
    ensures r == Err(DatabaseError) <==> !db.online
    ensures r == Err(IdNotFound) <==> db.online && id !in db.printers
  {
    Verdict(db.online, id in db.printers)
  }

  function MovementExists(db: Store, id: Uuid): (r: Result<(), ApiError>)
    reads db
    ensures r.Ok? <==> db.online && id in db.movements
    ensures r == Err(DatabaseError) <==> !db.online
    ensures r == Err(IdNotFound) <==> db.online && id !in db.movements
  {
    Verdict(db.online, id in db.movements)
  }
}
