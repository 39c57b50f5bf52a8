/** The record shapes the pricing and report logic reads, and the
    by-id lookup the storage layer offers for them. */
module Records {

  datatype Option<T> = None | Some(value: T)

  /** A customer row (main.py:30-39). The values a report shows are kept as
      the text the application renders them to; `roofArea` and
      `estimatedDate` are that rendering of a float and a datetime. */
  datatype Customer = Customer(
    id: int,
    name: string,
    address: string,
    roofArea: string,
    tileType: string,
    cleaningMethod: string,
    treatmentType: string,
    drainageType: string,
    estimatedDate: string)

  /** A job row (main.py:45-55); every column is required. */
  datatype Job = Job(
    id: int,
    customerName: string,
    address: string,
    roofArea: string,
    tileType: string,
    cleaningMethod: string,
    treatmentType: string,
    drainageType: string,
    estimatedDate: string,
    userId: int)

  /** A catalog entry (main.py:77-86). The two maxima are only compared
      with the job's metrics and the price is only passed on, never
      combined arithmetically, so `real` stands for the stored floats. */
  datatype PricingTier = PricingTier(
    id: int,
    name: string,
    description: string,
    price: real,
    maxRoofArea: real,
    maxJobDuration: real)

  /** Primary-key lookup (`Model.query.get(id)`): a row, or nothing when no
      row has that id. A table is a map from primary key to row. */
  function Get<R>(table: map<int, R>, id: int): (r: Option<R>)
    ensures r.None? <==> id !in table
    ensures r.Some? ==> id in table && r.value == table[id]
  {
    if id in table then Some(table[id]) else None
  }
}
