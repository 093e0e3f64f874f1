/** Identifier and value types shared by the local records and the gateway model. */
module Types {

  /** A gateway-assigned identifier (a UUID in the gateway; only equality matters here). */
  type KongId = nat

  /** A local primary key. */
  type LocalId = nat

  /** A point in time; timestamps are only stored and compared. */
  type Timestamp = int

  /** A plugin configuration payload (a JSON document), compared only by equality. */
  type Config = string
}
