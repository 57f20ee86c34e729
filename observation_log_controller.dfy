/** The observation-log handlers: record, edit, remove and look up one
    sighting of a celestial object by a user. */
module ObservationLogController {
  import opened Js
  import opened Store
  import opened Http

  /** The request body of create and update. */
  datatype LogRequest = LogRequest(
    userId: Option<int>,
    objectId: Option<int>,
    observationDate: Option<string>,
    notes: Option<string>,
    equipment: Option<string>,
    seeingCondition: Option<string>)

  const RequiredMessage := "UserID, ObjectID, and ObservationDate are required"
  const NotFoundMessage := "Observation log not found"

  /** `userId`, `objectId` and `observationDate` are all truthy (an id of 0 is not). */
  predicate HasRequired(req: LogRequest) {
    IntTruthy(req.userId) && IntTruthy(req.objectId) && StrTruthy(req.observationDate)
  }

  /** The row that create and update write: the three required fields as
      given, and each free-text field given or else empty. */
  function LogRow(req: LogRequest): (l: ObservationLog)
    requires HasRequired(req)
    ensures l.userId == req.userId.value && l.objectId == req.objectId.value
    ensures l.observationDate == req.observationDate.value
    ensures StrTruthy(req.notes) ==> l.notes == req.notes.value
    ensures !StrTruthy(req.notes) ==> l.notes == ""
    ensures StrTruthy(req.equipment) ==> l.equipment == req.equipment.value
    ensures !StrTruthy(req.equipment) ==> l.equipment == ""
    ensures StrTruthy(req.seeingCondition) ==> l.seeingCondition == req.seeingCondition.value
    ensures !StrTruthy(req.seeingCondition) ==> l.seeingCondition == ""
  {
    ObservationLog(
      req.userId.value,
      req.objectId.value,
      req.observationDate.value,
      StrOr(req.notes, ""),
      StrOr(req.equipment, ""),
      StrOr(req.seeingCondition, ""))
  }

  /** GET /logs/:id */
  method GetObservationLogById(db: Database, id: int) returns (res: Response)
    ensures id !in db.logs ==> res == Failure(404, NotFoundMessage)
    ensures id in db.logs ==>
      && res.status == 200 && res.data.LogFound?
      && res.data.logView == db.GetObservationLogById(id).value
      && res.data.logView.log == db.logs[id]
  {
    var log := db.GetObservationLogById(id);
    if log.None? {
      return Failure(404, NotFoundMessage);
    }
    res := Response(200, "Observation log retrieved successfully", LogFound(log.value));
  }

  /** POST /logs */
  method CreateObservationLog(db: Database, req: LogRequest) returns (res: Response)
    requires db.Valid()
    modifies db`logs, db`nextLogId
    ensures db.Valid()
    ensures !HasRequired(req) ==> res == Failure(400, RequiredMessage) && db.logs == old(db.logs)
    ensures HasRequired(req) ==>
      && res.status == 201 && res.message == "Observation log created successfully"
      && res.data.LogSummary?
      && res.data == LogSummary(res.data.logId, req.userId.value, req.objectId.value, req.observationDate.value)
      && res.data.logId > 0 && res.data.logId !in old(db.logs)
      && db.logs == old(db.logs)[res.data.logId := LogRow(req)]
  {
    if !HasRequired(req) {
      return Failure(400, RequiredMessage);
    }
    var logId := db.CreateObservationLog(LogRow(req));
    res := Response(201, "Observation log created successfully",
                    LogSummary(logId, req.userId.value, req.objectId.value, req.observationDate.value));
  }

  /** PUT /logs/:id */
  method UpdateObservationLog(db: Database, id: int, req: LogRequest) returns (res: Response)
    requires db.Valid()
    modifies db`logs
    ensures db.Valid()
    ensures !HasRequired(req) ==> res == Failure(400, RequiredMessage) && db.logs == old(db.logs)
    ensures HasRequired(req) && id !in old(db.logs) ==> res == Failure(404, NotFoundMessage) && db.logs == old(db.logs)
    ensures HasRequired(req) && id in old(db.logs) ==>
      && res == Response(200, "Observation log updated successfully",
                         LogSummary(id, req.userId.value, req.objectId.value, req.observationDate.value))
      && db.logs == old(db.logs)[id := LogRow(req)]
  {
    if !HasRequired(req) {
      return Failure(400, RequiredMessage);
    }
    var rowsAffected := db.UpdateObservationLog(id, LogRow(req));
    if rowsAffected == 0 {
      return Failure(404, NotFoundMessage);
    }
    res := Response(200, "Observation log updated successfully",
                    LogSummary(id, req.userId.value, req.objectId.value, req.observationDate.value));
  }

  /** DELETE /logs/:id */
  method DeleteObservationLog(db: Database, id: int) returns (res: Response)
    requires db.Valid()
    modifies db`logs
    ensures db.Valid()
    ensures id !in old(db.logs) ==> res == Failure(404, NotFoundMessage) && db.logs == old(db.logs)
    ensures id in old(db.logs) ==>
      res == Response(200, "Observation log deleted successfully", NoData) && db.logs == old(db.logs) - {id}
  {
    var rowsAffected := db.DeleteObservationLog(id);
    if rowsAffected == 0 {
      return Failure(404, NotFoundMessage);
    }
    res := Response(200, "Observation log deleted successfully", NoData);
  }
}
