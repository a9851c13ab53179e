/**
 * The `shipments` table as the shipment routes see it: one row per tracking
 * code. Only the columns that the modelled routes read or write are kept.
 */
module Store {

  import opened Wrappers
  import opened JsValues

  /** One stored shipment. Times are milliseconds since the epoch; number
      columns are `None` when NULL; `products` is the JSONB cargo column. */
  datatype Row = Row(
    code: string,
    status: Option<string>,
    progress: Option<real>,
    createdAt: real,
    updatedAt: real,
    estimatedHours: Option<real>,
    originLat: Option<real>,
    originLng: Option<real>,
    destLat: Option<real>,
    destLng: Option<real>,
    currentLat: Option<real>,
    currentLng: Option<real>,
    products: Value)

  /** The record store: a row per code, found with `.eq('code', c).single()`. */
  class ShipmentTable {
    var rows: map<string, Row>

    constructor (initial: map<string, Row>)
      ensures rows == initial
    {
      rows := initial;
    }

    /** `.select(...).eq('code', code).single()`: the row, or `None` when no row matches. */
    function Find(code: string): (r: Option<Row>)
      reads this
      ensures r.Some? <==> code in rows
      ensures r.Some? ==> r.value == rows[code]
    {
      if code in rows then Some(rows[code]) else None
    }
  }
}
