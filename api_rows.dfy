/** The rows the front end receives from the list endpoints, as the pages read
    them. Every field the backend may leave out or send as null is an
    `Option`; the primary keys are always present in list rows. */
module ApiRows {
  import opened Js

  /** A row of GET /objects as the object list reads it. The page reads
      `Magnitude`, but the list query names the column `ApparentMagnitude`,
      so rows coming from the backend carry `magnitude == None`. */
  datatype ObjectRow = ObjectRow(
    objectId: int,
    name: Option<string>,
    typeName: Option<string>,
    constellationName: Option<string>,
    magnitude: Option<real>,
    apparentMagnitude: Option<real>)

  /** A row of GET /logs (the log joined with username and object name). */
  datatype LogRow = LogRow(
    logId: int,
    userId: Option<int>,
    objectId: Option<int>,
    objectName: Option<string>,
    observationDate: Option<string>,
    notes: Option<string>,
    seeingCondition: Option<string>)

  /** A row of GET /constellations. */
  datatype ConstellationRow = ConstellationRow(
    constellationId: int,
    name: Option<string>,
    description: Option<string>)

  /** A row of GET /types. `TypeName` is the column; some callers also
      accept a camel-case `typeName`. */
  datatype TypeRow = TypeRow(
    typeId: int,
    typeNameColumn: Option<string>,
    typeNameField: Option<string>,
    description: Option<string>)

  /** A row of GET /users. */
  datatype UserRow = UserRow(userId: int, username: Option<string>, email: Option<string>)

  /** The primary keys, as functions for the list updates after a delete. */
  function ObjectKey(o: ObjectRow): int { o.objectId }
  function LogKey(l: LogRow): int { l.logId }
  function ConstellationKey(c: ConstellationRow): int { c.constellationId }
  function UserKey(u: UserRow): int { u.userId }
}
