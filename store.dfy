/** The database the handlers share, as an in-memory store: one map per
    table from a row's id to the row. */
module Database {
  import opened Common
  import opened Tables

  class Store {
    var toners: map<Uuid, Toner>
    var drums: map<Uuid, Drum>
    var brands: map<Uuid, Brand>
    var printers: map<Uuid, Printer>
    var movements: map<Uuid, Movement>
    /** The database answers; when false, every statement fails. */
    var online: bool

    /** Every table is keyed by its rows' primary key. */
    ghost predicate Valid()
      reads this
    {
      SuppliesKeyed(toners) && SuppliesKeyed(drums) && BrandsKeyed(brands) &&
      PrintersKeyed(printers) && MovementsKeyed(movements)
    }

    /** A freshly migrated, empty database. */
    constructor (online: bool)
      ensures Valid() && this.online == online
      ensures toners == map[] && drums == map[] && brands == map[]
      ensures printers == map[] && movements == map[]
    {
      toners, drums, brands, printers, movements := map[], map[], map[], map[], map[];
      this.online := online;
    }
  }
}
