/** The JSON envelope every handler answers with:
    `{ success, data?, message }` under an HTTP status code. The raw `error`
    text a 500 response echoes is not modelled. */
module Http {
  import opened Js
  import opened Store

  /** The `data` member of a response. The summaries echo the request's own
      values back, so their optional parts stay optional. */
  datatype Payload =
    | NoData
    | ObjectCreated(objectId: int, name: string, typeId: int, starId: Option<int>, exoplanetId: Option<int>)
    | ObjectUpdated(objectId: int, name: string, typeId: int)
    | ObjectFound(objectView: ObjectView)
    | UserSummary(userId: int, username: string, email: string)
    | UserFound(userId: int, user: User)
    | LogSummary(logId: int, userId: int, objectId: int, observationDate: string)
    | LogFound(logView: LogView)
    | ConstellationSummary(constellationId: int, name: string, description: Option<string>,
                           rightAscension: Option<string>, declination: Option<string>)
    | ConstellationFound(constellationId: int, constellation: Constellation)
    | TypeSummary(typeId: int, typeName: string, description: Option<string>)
    | TypeFound(typeId: int, objectType: ObjectType)

  datatype Response = Response(status: int, message: string, data: Payload) {
    /** The `success` flag: true exactly on the 200 and 201 answers. */
    predicate Success() {
      status == 200 || status == 201
    }
  }

  /** A failure answer: `{ success: false, message }`. */
  function Failure(status: int, message: string): Response {
    Response(status, message, NoData)
  }
}
