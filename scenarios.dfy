/** End-to-end runs of the celestial-object handlers on a fresh database:
    create-then-read of a star, the delete guard against removing a host
    star, and the delete that the unexported guard breaks. */
module Scenarios {
  import opened Js
  import opened Store
  import opened Http
  import opened CelestialObjectController

  /** A request for an object of type `typeId` with no optional fields. */
  function PlainRequest(name: string, typeId: int, star: Option<StarInput>, exoplanet: Option<ExoplanetInput>): ObjectRequest {
    ObjectRequest(Some(name), Some(typeId), None, None, None, None, None, star, exoplanet)
  }

  /** An object that hosts no exoplanet: the delete as written answers 500,
      the guarded delete answers 200. */
  method UnusedObjectDelete() returns (asWritten: Response, corrected: Response)
    ensures asWritten == Failure(500, DeleteErrorMessage) && !asWritten.Success()
    ensures corrected == Response(200, "Celestial object deleted successfully", NoData)
  {
    var db := new Database();
    var id := db.CreateCelestialObject(CelestialObject("Vega", 1, None, "", "", None, None));
    asWritten := DeleteCelestialObjectAsWritten(db, id);
    corrected := DeleteCelestialObject(db, id);
  }

  /** Creating an object of type "Star" with star details, then reading it
      back, returns those details with the create-time defaults applied. */
  method CreateThenReadStar(s: StarInput) returns (created: Response, read: Response)
    ensures created.status == 201 && created.data.ObjectCreated?
    ensures created.data.starId == Some(created.data.objectId) && created.data.exoplanetId == None
    ensures read.status == 200 && read.data.ObjectFound?
    ensures read.data.objectView.objectId == created.data.objectId
    ensures read.data.objectView.star == Some(StarRow(s, true))
    ensures read.data.objectView.exoplanet == None
  {
    var db := new Database();
    var starType := db.CreateObjectType(ObjectType("Star", ""));
    created := CreateCelestialObject(db, PlainRequest("Sirius", starType, Some(s), None));
    read := GetCelestialObjectById(db, created.data.objectId);
  }

  /** A star named as host by an exoplanet cannot be deleted; once the
      exoplanet is deleted, the star can be. */
  method HostStarDeleteRefusedUntilExoplanetGone(e: ExoplanetInput)
    returns (refused: Response, exoplanetDeleted: Response, starDeleted: Response)
    ensures refused == Failure(400, HostStarMessage)
    ensures exoplanetDeleted == Response(200, "Celestial object deleted successfully", NoData)
    ensures starDeleted == Response(200, "Celestial object deleted successfully", NoData)
  {
    var db := new Database();
    var starType := db.CreateObjectType(ObjectType("Star", ""));
    var planetType := db.CreateObjectType(ObjectType("Exoplanet", ""));
    var star := CreateCelestialObject(db, PlainRequest("Kepler-22", starType, None, None));
    var starId := star.data.objectId;
    assert starId != 0;
    var planet := CreateCelestialObject(db, PlainRequest("Kepler-22b", planetType, None, Some(e.(hostStarId := Some(starId)))));
    var planetId := planet.data.objectId;
    assert db.exoplanets == map[planetId := ExoplanetRow(e.(hostStarId := Some(starId)), true)];
    assert db.IsUsedAsHostStar(starId);
    refused := DeleteCelestialObject(db, starId);
    exoplanetDeleted := DeleteCelestialObject(db, planetId);
    assert db.exoplanets == map[];
    starDeleted := DeleteCelestialObject(db, starId);
  }
}
