/** The celestial-object handlers: a base row in CelestialObjects plus, depending
    on the object's type name, one StarDetails or ExoplanetDetails row keyed by
    the same id, written one after the other with no transaction. */
module CelestialObjectController {
  import opened Js
  import opened Store
  import opened Http

  datatype StarInput = StarInput(
    spectralClass: Option<string>,
    luminosityClass: Option<string>,
    temperature: Option<int>,
    mass: Option<real>)

  datatype ExoplanetInput = ExoplanetInput(
    hostStarId: Option<int>,
    orbitalPeriod: Option<real>,
    semiMajorAxis: Option<real>,
    eccentricity: Option<real>)

  /** The request body of create and update. */
  datatype ObjectRequest = ObjectRequest(
    name: Option<string>,
    typeId: Option<int>,
    constellationId: Option<int>,
    rightAscension: Option<string>,
    declination: Option<string>,
    magnitude: Option<real>,
    distance: Option<real>,
    starDetails: Option<StarInput>,
    exoplanetDetails: Option<ExoplanetInput>)

  const RequiredMessage := "Name and TypeID are required"
  const NotFoundMessage := "Celestial object not found"
  const HostStarMessage := "Cannot delete this celestial object because it is being used as a host star for one or more exoplanets. Please remove or update the exoplanet references first."
  const DeleteErrorMessage := "Error deleting celestial object"

  /** `name` and `typeId` are both truthy. */
  predicate HasRequired(req: ObjectRequest) {
    StrTruthy(req.name) && IntTruthy(req.typeId)
  }

  /** The base row create and update write, with the optional fields defaulted. */
  function BaseRow(req: ObjectRequest): (o: CelestialObject)
    requires HasRequired(req)
    ensures o.name == req.name.value && o.typeId == req.typeId.value
    ensures !IntTruthy(req.constellationId) ==> o.constellationId == None
    ensures !StrTruthy(req.rightAscension) ==> o.rightAscension == ""
    ensures !StrTruthy(req.declination) ==> o.declination == ""
    ensures !RealTruthy(req.magnitude) ==> o.magnitude == None
    ensures !RealTruthy(req.distance) ==> o.distance == None
    ensures IntTruthy(req.constellationId) ==> o.constellationId == req.constellationId
    ensures StrTruthy(req.rightAscension) ==> o.rightAscension == req.rightAscension.value
    ensures StrTruthy(req.declination) ==> o.declination == req.declination.value
    ensures RealTruthy(req.magnitude) ==> o.magnitude == req.magnitude
    ensures RealTruthy(req.distance) ==> o.distance == req.distance
  {
    CelestialObject(
      req.name.value,
      req.typeId.value,
      IntOrNull(req.constellationId),
      StrOr(req.rightAscension, ""),
      StrOr(req.declination, ""),
      RealOrNull(req.magnitude),
      RealOrNull(req.distance))
  }

  /** `type?.TypeName` for the looked-up type row. */
  function TypeNameOf(t: Option<ObjectType>): Option<string> {
    if t.Some? then Some(t.value.typeName) else None
  }

  /** The detail row a request leads to: none, a star row, or an exoplanet row. */
  datatype DetailPlan = Plain | StarPlan(star: StarDetail) | ExoplanetPlan(exoplanet: ExoplanetDetail)

  /** The star row; create applies `|| null` to each field, update passes them as given. */
  function StarRow(s: StarInput, onCreate: bool): StarDetail {
    if onCreate then
      StarDetail(StrOrNull(s.spectralClass), StrOrNull(s.luminosityClass), IntOrNull(s.temperature), RealOrNull(s.mass))
    else
      StarDetail(s.spectralClass, s.luminosityClass, s.temperature, s.mass)
  }

  /** The exoplanet row; create applies `|| null` to each field, update passes them as given. */
  function ExoplanetRow(e: ExoplanetInput, onCreate: bool): ExoplanetDetail {
    if onCreate then
      ExoplanetDetail(IntOrNull(e.hostStarId), RealOrNull(e.orbitalPeriod), RealOrNull(e.semiMajorAxis), RealOrNull(e.eccentricity))
    else
      ExoplanetDetail(e.hostStarId, e.orbitalPeriod, e.semiMajorAxis, e.eccentricity)
  }

  /** The detail row written for a request whose type's name is `typeName`.
      The two gates of the handlers are independent tests, but a type name
      cannot be both "Star" and "Exoplanet", so at most one kind is written. */
  function DetailPlanFor(req: ObjectRequest, typeName: Option<string>, onCreate: bool): (p: DetailPlan)
    ensures p.StarPlan? <==> req.starDetails.Some? && typeName == Some("Star")
    ensures p.ExoplanetPlan? <==> req.exoplanetDetails.Some? && typeName == Some("Exoplanet")
    ensures p.StarPlan? ==> p.star == StarRow(req.starDetails.value, onCreate)
    ensures p.ExoplanetPlan? ==> p.exoplanet == ExoplanetRow(req.exoplanetDetails.value, onCreate)
    ensures typeName.None? ==> p == Plain
  {
    if req.starDetails.Some? && typeName == Some("Star") then StarPlan(StarRow(req.starDetails.value, onCreate))
    else if req.exoplanetDetails.Some? && typeName == Some("Exoplanet") then ExoplanetPlan(ExoplanetRow(req.exoplanetDetails.value, onCreate))
    else Plain
  }

  /** GET /objects/:id */
  method GetCelestialObjectById(db: Database, id: int) returns (res: Response)
    ensures id !in db.objects ==> res == Failure(404, NotFoundMessage)
    ensures id in db.objects ==>
      && res.status == 200
      && res.data.ObjectFound?
      && res.data.objectView.objectId == id && res.data.objectView.base == db.objects[id]
      && res.data.objectView.star == (if id in db.stars then Some(db.stars[id]) else None)
      && res.data.objectView.exoplanet == (if id in db.exoplanets then Some(db.exoplanets[id]) else None)
    ensures id in db.objects ==> res.data == ObjectFound(db.GetCelestialObjectById(id).value)
  {
    var found := db.GetCelestialObjectById(id);
    if found.None? {
      return Failure(404, NotFoundMessage);
    }
    res := Response(200, "Celestial object retrieved successfully", ObjectFound(found.value));
  }

  /** POST /objects */
  method CreateCelestialObject(db: Database, req: ObjectRequest) returns (res: Response)
    requires db.Valid()
    modifies db`objects, db`nextObjectId, db`stars, db`exoplanets
    ensures db.Valid()
    ensures !HasRequired(req) ==>
      && res == Failure(400, RequiredMessage)
      && db.objects == old(db.objects) && db.stars == old(db.stars) && db.exoplanets == old(db.exoplanets)
    ensures HasRequired(req) ==>
      && res.status == 201 && res.message == "Celestial object created successfully"
      && res.data.ObjectCreated?
      && res.data.objectId !in old(db.objects)
      && db.objects == old(db.objects)[res.data.objectId := BaseRow(req)]
    ensures HasRequired(req) ==>
      var id := res.data.objectId;
      var plan := DetailPlanFor(req, TypeNameOf(db.GetObjectTypeById(req.typeId.value)), true);
      && db.stars == (if plan.StarPlan? then old(db.stars)[id := plan.star] else old(db.stars))
      && db.exoplanets == (if plan.ExoplanetPlan? then old(db.exoplanets)[id := plan.exoplanet] else old(db.exoplanets))
      && res.data == ObjectCreated(id, req.name.value, req.typeId.value,
                                   if plan.StarPlan? then Some(id) else None,
                                   if plan.ExoplanetPlan? then Some(id) else None)
  {
    if !HasRequired(req) {
      return Failure(400, RequiredMessage);
    }
    var objectId := db.CreateCelestialObject(BaseRow(req));
    var starId: Option<int> := None;
    var exoplanetId: Option<int> := None;
    var typeName := TypeNameOf(db.GetObjectTypeById(req.typeId.value));
    if req.starDetails.Some? && typeName == Some("Star") {
      var sid := db.CreateStarDetails(objectId, StarRow(req.starDetails.value, true));
      starId := Some(sid);
    }
    if req.exoplanetDetails.Some? && typeName == Some("Exoplanet") {
      var eid := db.CreateExoplanetDetails(objectId, ExoplanetRow(req.exoplanetDetails.value, true));
      exoplanetId := Some(eid);
    }
    res := Response(201, "Celestial object created successfully",
                    ObjectCreated(objectId, req.name.value, req.typeId.value, starId, exoplanetId));
  }

  /** PUT /objects/:id */
  method UpdateCelestialObject(db: Database, id: int, req: ObjectRequest) returns (res: Response)
    requires db.Valid()
    modifies db`objects, db`stars, db`exoplanets
    ensures db.Valid()
    ensures !HasRequired(req) ==>
      && res == Failure(400, RequiredMessage)
      && db.objects == old(db.objects) && db.stars == old(db.stars) && db.exoplanets == old(db.exoplanets)
    ensures HasRequired(req) && id !in old(db.objects) ==>
      && res == Failure(404, NotFoundMessage)
      && db.objects == old(db.objects) && db.stars == old(db.stars) && db.exoplanets == old(db.exoplanets)
    ensures HasRequired(req) && id in old(db.objects) ==>
      && res == Response(200, "Celestial object updated successfully", ObjectUpdated(id, req.name.value, req.typeId.value))
      && db.objects == old(db.objects)[id := BaseRow(req)]
    ensures HasRequired(req) && id in old(db.objects) ==>
      var plan := DetailPlanFor(req, TypeNameOf(db.GetObjectTypeById(req.typeId.value)), false);
      && db.stars == (if plan.StarPlan? then old(db.stars)[id := plan.star] else old(db.stars))
      && db.exoplanets == (if plan.ExoplanetPlan? then old(db.exoplanets)[id := plan.exoplanet] else old(db.exoplanets))
  {
    if !HasRequired(req) {
      return Failure(400, RequiredMessage);
    }
    var rowsAffected := db.UpdateCelestialObject(id, BaseRow(req));
    if rowsAffected == 0 {
      return Failure(404, NotFoundMessage);
    }
    var typeName := TypeNameOf(db.GetObjectTypeById(req.typeId.value));
    if req.starDetails.Some? && typeName == Some("Star") {
      var star := db.GetStarDetailsByObjectId(id);
      if star.Some? {
        var updated := db.UpdateStarDetails(id, StarRow(req.starDetails.value, false));
      } else {
        var created := db.CreateStarDetails(id, StarRow(req.starDetails.value, false));
      }
    }
    if req.exoplanetDetails.Some? && typeName == Some("Exoplanet") {
      var exoplanet := db.GetExoplanetDetailsByObjectId(id);
      if exoplanet.Some? {
        var updated := db.UpdateExoplanetDetails(id, ExoplanetRow(req.exoplanetDetails.value, false));
      } else {
        var created := db.CreateExoplanetDetails(id, ExoplanetRow(req.exoplanetDetails.value, false));
      }
    }
    res := Response(200, "Celestial object updated successfully", ObjectUpdated(id, req.name.value, req.typeId.value));
  }

  /** DELETE /objects/:id with the host-star guard in place: refused while an
      exoplanet names the object as its host star. */
  method DeleteCelestialObject(db: Database, id: int) returns (res: Response)
    requires db.Valid()
    modifies db`objects, db`stars, db`exoplanets
    ensures db.Valid()
    ensures old(db.IsUsedAsHostStar(id)) ==>
      && res == Failure(400, HostStarMessage)
      && db.objects == old(db.objects) && db.stars == old(db.stars) && db.exoplanets == old(db.exoplanets)
    ensures !old(db.IsUsedAsHostStar(id)) && id !in old(db.objects) ==>
      && res == Failure(404, NotFoundMessage)
      && db.objects == old(db.objects) && db.stars == old(db.stars) && db.exoplanets == old(db.exoplanets)
    ensures !old(db.IsUsedAsHostStar(id)) && id in old(db.objects) ==>
      && res == Response(200, "Celestial object deleted successfully", NoData)
      && db.objects == old(db.objects) - {id}
      && db.stars == old(db.stars) - {id} && db.exoplanets == old(db.exoplanets) - {id}
  {
    if db.IsUsedAsHostStar(id) {
      return Failure(400, HostStarMessage);
    }
    var rowsAffected := db.DeleteCelestialObject(id);
    if rowsAffected == 0 {
      return Failure(404, NotFoundMessage);
    }
    res := Response(200, "Celestial object deleted successfully", NoData);
  }

  /** DELETE /objects/:id as the handler is written: the model module exports
      no `isUsedAsHostStar`, so the guard's call throws a TypeError before any
      row is touched and the catch answers 500, whatever the id. */
  method DeleteCelestialObjectAsWritten(db: Database, id: int) returns (res: Response)
    ensures res == Failure(500, DeleteErrorMessage)
    ensures !res.Success()
  {
    res := Failure(500, DeleteErrorMessage);
  }
}
