/** The constellation handlers. The model layer's create and update take
    (name, description, abbreviation), while the handlers pass
    (name, description || "", rightAscension || "", declination || ""): the
    right ascension lands in the Abbreviation column, the declination is
    dropped, and the `abbreviation` the front-end forms send is never read.
    The model keeps that behaviour. */
module ConstellationController {
  import opened Js
  import opened Store
  import opened Http

  /** The request body of create and update. */
  datatype ConstellationRequest = ConstellationRequest(
    name: Option<string>,
    description: Option<string>,
    rightAscension: Option<string>,
    declination: Option<string>,
    abbreviation: Option<string>)

  const RequiredMessage := "Constellation name is required"
  const NotFoundMessage := "Constellation not found"

  /** The row that create and update write. */
  function ConstellationRow(req: ConstellationRequest): (c: Constellation)
    requires StrTruthy(req.name)
    ensures c.name == req.name.value
    ensures c.description == (if StrTruthy(req.description) then req.description.value else "")
    ensures c.abbreviation == (if StrTruthy(req.rightAscension) then req.rightAscension.value else "")
  {
    Constellation(req.name.value, StrOr(req.description, ""), StrOr(req.rightAscension, ""))
  }

  /** Neither the declination nor the abbreviation of a request reaches the
      table: a request that differs only in those stores the same row. */
  lemma DeclinationAndAbbreviationNeverStored(req: ConstellationRequest, declination: Option<string>, abbreviation: Option<string>)
    requires StrTruthy(req.name)
    ensures ConstellationRow(req.(declination := declination, abbreviation := abbreviation)) == ConstellationRow(req)
  {
  }

  /** The summary echoed back: the request's own optional fields, not the
      defaulted values that were stored. */
  function Summary(id: int, req: ConstellationRequest): Payload
    requires StrTruthy(req.name)
  {
    ConstellationSummary(id, req.name.value, req.description, req.rightAscension, req.declination)
  }

  /** GET /constellations/:id */
  method GetConstellationById(db: Database, id: int) returns (res: Response)
    ensures id !in db.constellations ==> res == Failure(404, NotFoundMessage)
    ensures id in db.constellations ==>
      res == Response(200, "Constellation retrieved successfully", ConstellationFound(id, db.constellations[id]))
  {
    var c := db.GetConstellationById(id);
    if c.None? {
      return Failure(404, NotFoundMessage);
    }
    res := Response(200, "Constellation retrieved successfully", ConstellationFound(id, c.value));
  }

  /** POST /constellations */
  method CreateConstellation(db: Database, req: ConstellationRequest) returns (res: Response)
    requires db.Valid()
    modifies db`constellations, db`nextConstellationId
    ensures db.Valid()
    ensures !StrTruthy(req.name) ==> res == Failure(400, RequiredMessage) && db.constellations == old(db.constellations)
    ensures StrTruthy(req.name) ==>
      && res.status == 201 && res.message == "Constellation created successfully"
      && res.data.ConstellationSummary?
      && res.data == Summary(res.data.constellationId, req)
      && res.data.constellationId > 0 && res.data.constellationId !in old(db.constellations)
      && db.constellations == old(db.constellations)[res.data.constellationId := ConstellationRow(req)]
  {
    if !StrTruthy(req.name) {
      return Failure(400, RequiredMessage);
    }
    var row := ConstellationRow(req);
    var constellationId := db.CreateConstellation(row.name, row.description, row.abbreviation);
    res := Response(201, "Constellation created successfully", Summary(constellationId, req));
  }

  /** PUT /constellations/:id */
  method UpdateConstellation(db: Database, id: int, req: ConstellationRequest) returns (res: Response)
    requires db.Valid()
    modifies db`constellations
    ensures db.Valid()
    ensures !StrTruthy(req.name) ==> res == Failure(400, RequiredMessage) && db.constellations == old(db.constellations)
    ensures StrTruthy(req.name) && id !in old(db.constellations) ==>
      res == Failure(404, NotFoundMessage) && db.constellations == old(db.constellations)
    ensures StrTruthy(req.name) && id in old(db.constellations) ==>
      && res == Response(200, "Constellation updated successfully", Summary(id, req))
      && db.constellations == old(db.constellations)[id := ConstellationRow(req)]
  {
    if !StrTruthy(req.name) {
      return Failure(400, RequiredMessage);
    }
    var row := ConstellationRow(req);
    var rowsAffected := db.UpdateConstellation(id, row.name, row.description, row.abbreviation);
    if rowsAffected == 0 {
      return Failure(404, NotFoundMessage);
    }
    res := Response(200, "Constellation updated successfully", Summary(id, req));
  }

  /** DELETE /constellations/:id */
  method DeleteConstellation(db: Database, id: int) returns (res: Response)
    requires db.Valid()
    modifies db`constellations
    ensures db.Valid()
    ensures id !in old(db.constellations) ==> res == Failure(404, NotFoundMessage) && db.constellations == old(db.constellations)
    ensures id in old(db.constellations) ==>
      && res == Response(200, "Constellation deleted successfully", NoData)
      && db.constellations == old(db.constellations) - {id}
  {
    var rowsAffected := db.DeleteConstellation(id);
    if rowsAffected == 0 {
      return Failure(404, NotFoundMessage);
    }
    res := Response(200, "Constellation deleted successfully", NoData);
  }
}
