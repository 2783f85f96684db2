/** One document of the Products collection (models/productsModel.js). */
module ProductModel {
  import opened Wrappers

  /**
   * The schema's fields. `price` is an exact real (the store keeps a
   * JavaScript number, which may be fractional). `dateOfSale` is kept only as
   * the month of year that `$month` extracts from it: `Some(1..12)` for a
   * present date, `None` for a document without one.
   */
  datatype Record = Record(
    id: int,
    title: string,
    price: real,
    description: string,
    category: string,
    image: string,
    sold: bool,
    saleMonth: Option<int>)

  /** A document whose sale month, when present, is a real calendar month. */
  predicate WellFormed(r: Record) {
    r.saleMonth.Some? ==> 1 <= r.saleMonth.value <= 12
  }

  /** Every document of the collection is well formed. */
  predicate AllWellFormed(db: seq<Record>) {
    forall i :: 0 <= i < |db| ==> WellFormed(db[i])
  }
}
