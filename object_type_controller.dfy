/** The object-type handlers: the catalogue of kinds ("Star", "Exoplanet",
    ...) that every celestial object refers to. */
module ObjectTypeController {
  import opened Js
  import opened Store
  import opened Http

  /** The request body of create. */
  datatype TypeRequest = TypeRequest(typeName: Option<string>, description: Option<string>)

  const RequiredMessage := "Type name is required"
  const NotFoundMessage := "Object type not found"

  /** The row that create writes. */
  function TypeRow(req: TypeRequest): (t: ObjectType)
    requires StrTruthy(req.typeName)
    ensures t.typeName == req.typeName.value
    ensures t.description == (if StrTruthy(req.description) then req.description.value else "")
  {
    ObjectType(req.typeName.value, StrOr(req.description, ""))
  }

  /** GET /types/:id */
  method GetObjectTypeById(db: Database, id: int) returns (res: Response)
    ensures id !in db.types ==> res == Failure(404, NotFoundMessage)
    ensures id in db.types ==>
      res == Response(200, "Object type retrieved successfully", TypeFound(id, db.types[id]))
  {
    var t := db.GetObjectTypeById(id);
    if t.None? {
      return Failure(404, NotFoundMessage);
    }
    res := Response(200, "Object type retrieved successfully", TypeFound(id, t.value));
  }

  /** POST /types; the answer echoes the request's own description. */
  method CreateObjectType(db: Database, req: TypeRequest) returns (res: Response)
    requires db.Valid()
    modifies db`types, db`nextTypeId
    ensures db.Valid()
    ensures !StrTruthy(req.typeName) ==> res == Failure(400, RequiredMessage) && db.types == old(db.types)
    ensures StrTruthy(req.typeName) ==>
      && res.status == 201 && res.message == "Object type created successfully"
      && res.data.TypeSummary?
      && res.data == TypeSummary(res.data.typeId, req.typeName.value, req.description)
      && res.data.typeId > 0 && res.data.typeId !in old(db.types)
      && db.types == old(db.types)[res.data.typeId := TypeRow(req)]
  {
    if !StrTruthy(req.typeName) {
      return Failure(400, RequiredMessage);
    }
    var typeId := db.CreateObjectType(TypeRow(req));
    res := Response(201, "Object type created successfully", TypeSummary(typeId, req.typeName.value, req.description));
  }

  /** DELETE /types/:id */
  method DeleteObjectType(db: Database, id: int) returns (res: Response)
    requires db.Valid()
    modifies db`types
    ensures db.Valid()
    ensures id !in old(db.types) ==> res == Failure(404, NotFoundMessage) && db.types == old(db.types)
    ensures id in old(db.types) ==>
      res == Response(200, "Object type deleted successfully", NoData) && db.types == old(db.types) - {id}
  {
    var rowsAffected := db.DeleteObjectType(id);
    if rowsAffected == 0 {
      return Failure(404, NotFoundMessage);
    }
    res := Response(200, "Object type deleted successfully", NoData);
  }
}
