/** The database behind the controllers, as seven tables keyed by their
    primary keys. The SQL model files under backend/src/models become the
    methods and functions of `Database`: each states which rows it inserts,
    changes or removes and, for UPDATE and DELETE, how many rows it affected.
    Keys come from identity counters that start at 1, as IDENTITY(1,1) columns do. */
module Store {
  import opened Js

  datatype CelestialObject = CelestialObject(
    name: string,
    typeId: int,
    constellationId: Option<int>,
    rightAscension: string,
    declination: string,
    magnitude: Option<real>,
    distance: Option<real>)

  /** A StarDetails row; its key StarID is the ObjectID of its base object. */
  datatype StarDetail = StarDetail(
    spectralClass: Option<string>,
    luminosityClass: Option<string>,
    temperature: Option<int>,
    mass: Option<real>)

  /** An ExoplanetDetails row; its key ExoplanetID is the ObjectID of its base object. */
  datatype ExoplanetDetail = ExoplanetDetail(
    hostStarId: Option<int>,
    orbitalPeriod: Option<real>,
    semiMajorAxis: Option<real>,
    eccentricity: Option<real>)

  datatype ObjectType = ObjectType(typeName: string, description: string)

  /** A Users row; the password is stored as given, in plain text. */
  datatype User = User(username: string, email: string, password: string)

  datatype ObservationLog = ObservationLog(
    userId: int,
    objectId: int,
    observationDate: string,
    notes: string,
    equipment: string,
    seeingCondition: string)

  datatype Constellation = Constellation(name: string, description: string, abbreviation: string)

  /** The row the by-id object query returns: the base row left-joined with its
      type name, constellation name and both detail tables. */
  datatype ObjectView = ObjectView(
    objectId: int,
    base: CelestialObject,
    typeName: Option<string>,
    constellationName: Option<string>,
    star: Option<StarDetail>,
    exoplanet: Option<ExoplanetDetail>)

  /** The row the by-id log query returns: the log left-joined with the
      observer's username and the object's name. */
  datatype LogView = LogView(
    logId: int,
    log: ObservationLog,
    username: Option<string>,
    objectName: Option<string>)

  /** No two users share a username (the Username column is unique). */
  ghost predicate UniqueUsernames(users: map<int, User>) {
    forall a, b :: a in users && b in users && users[a].username == users[b].username ==> a == b
  }

  class Database {
    var objects: map<int, CelestialObject>
    var stars: map<int, StarDetail>
    var exoplanets: map<int, ExoplanetDetail>
    var types: map<int, ObjectType>
    var users: map<int, User>
    var logs: map<int, ObservationLog>
    var constellations: map<int, Constellation>
    var nextObjectId: int
    var nextTypeId: int
    var nextUserId: int
    var nextLogId: int
    var nextConstellationId: int

    /** Every key is a value its identity counter has already handed out, every
        detail row belongs to an existing base object, and usernames are unique. */
    ghost predicate Valid()
      reads this
    {
      && 0 < nextObjectId && 0 < nextTypeId && 0 < nextUserId && 0 < nextLogId && 0 < nextConstellationId
      && (forall id :: id in objects ==> 0 < id < nextObjectId)
      && (forall id :: id in types ==> 0 < id < nextTypeId)
      && (forall id :: id in users ==> 0 < id < nextUserId)
      && (forall id :: id in logs ==> 0 < id < nextLogId)
      && (forall id :: id in constellations ==> 0 < id < nextConstellationId)
      && stars.Keys <= objects.Keys
      && exoplanets.Keys <= objects.Keys
      && UniqueUsernames(users)
    }

    constructor ()
      ensures Valid()
      ensures objects == map[] && stars == map[] && exoplanets == map[] && types == map[]
      ensures users == map[] && logs == map[] && constellations == map[]
    {
      objects, stars, exoplanets, types := map[], map[], map[], map[];
      users, logs, constellations := map[], map[], map[];
      nextObjectId, nextTypeId, nextUserId, nextLogId, nextConstellationId := 1, 1, 1, 1, 1;
    }

    // ---------------------------------------------------------------- objects

    /** INSERT INTO CelestialObjects; returns the new ObjectID. */
    method CreateCelestialObject(o: CelestialObject) returns (id: int)
      requires Valid()
      modifies this`objects, this`nextObjectId
      ensures Valid()
      ensures id > 0 && id !in old(objects)
      ensures objects == old(objects)[id := o]
    {
      id := nextObjectId;
      objects := objects[id := o];
      nextObjectId := nextObjectId + 1;
    }

    /** UPDATE CelestialObjects WHERE ObjectID = id; returns the rows affected. */
    method UpdateCelestialObject(id: int, o: CelestialObject) returns (rows: nat)
      requires Valid()
      modifies this`objects
      ensures Valid()
      ensures rows == (if id in old(objects) then 1 else 0)
      ensures objects == if id in old(objects) then old(objects)[id := o] else old(objects)
    {
      if id in objects {
        objects := objects[id := o];
        rows := 1;
      } else {
        rows := 0;
      }
    }

    /** DELETE FROM CelestialObjects WHERE ObjectID = id, cascading to the
        object's detail rows; returns the base rows removed. */
    method DeleteCelestialObject(id: int) returns (rows: nat)
      requires Valid()
      modifies this`objects, this`stars, this`exoplanets
      ensures Valid()
      ensures rows == (if id in old(objects) then 1 else 0)
      ensures objects == old(objects) - {id}
      ensures stars == old(stars) - {id} && exoplanets == old(exoplanets) - {id}
    {
      rows := if id in objects then 1 else 0;
      objects := objects - {id};
      stars := stars - {id};
      exoplanets := exoplanets - {id};
    }

    /** Some exoplanet names object `id` as its host star. */
    predicate IsUsedAsHostStar(id: int)
      reads this
    {
      exists k :: k in exoplanets && exoplanets[k].hostStarId == Some(id)
    }

    /** The by-id object query. */
    function GetCelestialObjectById(id: int): (r: Option<ObjectView>)
      reads this
      ensures r.Some? <==> id in objects
      ensures r.Some? ==> r.value.objectId == id && r.value.base == objects[id]
      ensures r.Some? ==> (r.value.star.Some? <==> id in stars) && (r.value.exoplanet.Some? <==> id in exoplanets)
      ensures r.Some? ==> r.value.star == (if id in stars then Some(stars[id]) else None)
      ensures r.Some? ==> r.value.exoplanet == (if id in exoplanets then Some(exoplanets[id]) else None)
      ensures r.Some? ==> r.value.typeName == (if objects[id].typeId in types then Some(types[objects[id].typeId].typeName) else None)
      ensures r.Some? ==>
        r.value.constellationName == (if objects[id].constellationId.Some? && objects[id].constellationId.value in constellations
                                      then Some(constellations[objects[id].constellationId.value].name) else None)
    {
      if id !in objects then None
      else
        var o := objects[id];
        Some(ObjectView(
          id,
          o,
          if o.typeId in types then Some(types[o.typeId].typeName) else None,
          if o.constellationId.Some? && o.constellationId.value in constellations
          then Some(constellations[o.constellationId.value].name) else None,
          GetStarDetailsByObjectId(id),
          GetExoplanetDetailsByObjectId(id)))
    }

    // ---------------------------------------------------------------- details

    /** INSERT INTO StarDetails keyed by the object's id; returns that key. */
    method CreateStarDetails(objectId: int, d: StarDetail) returns (starId: int)
      requires Valid() && objectId in objects && objectId !in stars
      modifies this`stars
      ensures Valid()
      ensures starId == objectId && stars == old(stars)[objectId := d]
    {
      stars := stars[objectId := d];
      starId := objectId;
    }

    /** UPDATE StarDetails of the object; returns the rows affected. */
    method UpdateStarDetails(objectId: int, d: StarDetail) returns (rows: nat)
      requires Valid()
      modifies this`stars
      ensures Valid()
      ensures rows == (if objectId in old(stars) then 1 else 0)
      ensures stars == if objectId in old(stars) then old(stars)[objectId := d] else old(stars)
    {
      if objectId in stars {
        stars := stars[objectId := d];
        rows := 1;
      } else {
        rows := 0;
      }
    }

    function GetStarDetailsByObjectId(objectId: int): (r: Option<StarDetail>)
      reads this
      ensures r.Some? <==> objectId in stars
      ensures r.Some? ==> r.value == stars[objectId]
    {
      if objectId in stars then Some(stars[objectId]) else None
    }

    /** INSERT INTO ExoplanetDetails keyed by the object's id; returns that key. */
    method CreateExoplanetDetails(objectId: int, d: ExoplanetDetail) returns (exoplanetId: int)
      requires Valid() && objectId in objects && objectId !in exoplanets
      modifies this`exoplanets
      ensures Valid()
      ensures exoplanetId == objectId && exoplanets == old(exoplanets)[objectId := d]
    {
      exoplanets := exoplanets[objectId := d];
      exoplanetId := objectId;
    }

    /** UPDATE ExoplanetDetails of the object; returns the rows affected. */
    method UpdateExoplanetDetails(objectId: int, d: ExoplanetDetail) returns (rows: nat)
      requires Valid()
      modifies this`exoplanets
      ensures Valid()
      ensures rows == (if objectId in old(exoplanets) then 1 else 0)
      ensures exoplanets == if objectId in old(exoplanets) then old(exoplanets)[objectId := d] else old(exoplanets)
    {
      if objectId in exoplanets {
        exoplanets := exoplanets[objectId := d];
        rows := 1;
      } else {
        rows := 0;
      }
    }

    function GetExoplanetDetailsByObjectId(objectId: int): (r: Option<ExoplanetDetail>)
      reads this
      ensures r.Some? <==> objectId in exoplanets
      ensures r.Some? ==> r.value == exoplanets[objectId]
    {
      if objectId in exoplanets then Some(exoplanets[objectId]) else None
    }

    // ---------------------------------------------------------------- types

    function GetObjectTypeById(id: int): (r: Option<ObjectType>)
      reads this
      ensures r.Some? <==> id in types
      ensures r.Some? ==> r.value == types[id]
    {
      if id in types then Some(types[id]) else None
    }

    /** INSERT INTO ObjectTypes; returns the new TypeID. */
    method CreateObjectType(t: ObjectType) returns (id: int)
      requires Valid()
      modifies this`types, this`nextTypeId
      ensures Valid()
      ensures id > 0 && id !in old(types) && types == old(types)[id := t]
    {
      id := nextTypeId;
      types := types[id := t];
      nextTypeId := nextTypeId + 1;
    }

    /** DELETE FROM ObjectTypes WHERE TypeID = id; returns the rows removed. */
    method DeleteObjectType(id: int) returns (rows: nat)
      requires Valid()
      modifies this`types
      ensures Valid()
      ensures rows == (if id in old(types) then 1 else 0)
      ensures types == old(types) - {id}
    {
      rows := if id in types then 1 else 0;
      types := types - {id};
    }

    // ---------------------------------------------------------------- users

    function GetUserById(id: int): (r: Option<User>)
      reads this
      ensures r.Some? <==> id in users
      ensures r.Some? ==> r.value == users[id]
    {
      if id in users then Some(users[id]) else None
    }

    /** The user with this username, if there is one. */
    method GetUserByUsername(username: string) returns (r: Option<int>)
      requires Valid()
      ensures r.Some? ==> r.value in users && users[r.value].username == username
      ensures r.None? ==> forall id :: id in users ==> users[id].username != username
    {
      if id :| id in users && users[id].username == username {
        r := Some(id);
      } else {
        r := None;
      }
    }

    /** Some user already has this username. */
    predicate UsernameInUse(username: string)
      reads this
    {
      exists id :: id in users && users[id].username == username
    }

    /** A user other than `id` already has this username. */
    predicate UsernameHeldByOther(username: string, id: int)
      reads this
    {
      exists other :: other in users && other != id && users[other].username == username
    }

    /** INSERT INTO Users; None when the username is already taken, otherwise
        the new UserID. */
    method CreateUser(u: User) returns (r: Option<int>)
      requires Valid()
      modifies this`users, this`nextUserId
      ensures Valid()
      ensures r.None? <==> old(UsernameInUse(u.username))
      ensures r.None? ==> users == old(users)
      ensures r.Some? ==> r.value > 0 && r.value !in old(users) && users == old(users)[r.value := u]
    {
      if UsernameInUse(u.username) {
        r := None;
      } else {
        var id := nextUserId;
        users := users[id := u];
        nextUserId := nextUserId + 1;
        r := Some(id);
      }
    }

    /** UPDATE Users WHERE UserID = id; None when another user has the new
        username, otherwise the rows affected. */
    method UpdateUser(id: int, u: User) returns (r: Option<nat>)
      requires Valid()
      modifies this`users
      ensures Valid()
      ensures r.None? <==> id in old(users) && old(UsernameHeldByOther(u.username, id))
      ensures r.Some? ==> r.value == (if id in old(users) then 1 else 0)
      ensures users == if r == Some(1) then old(users)[id := u] else old(users)
    {
      if id !in users {
        r := Some(0);
      } else if UsernameHeldByOther(u.username, id) {
        r := None;
      } else {
        users := users[id := u];
        r := Some(1);
      }
    }

    /** DELETE FROM Users WHERE UserID = id; returns the rows removed. */
    method DeleteUser(id: int) returns (rows: nat)
      requires Valid()
      modifies this`users
      ensures Valid()
      ensures rows == (if id in old(users) then 1 else 0)
      ensures users == old(users) - {id}
    {
      rows := if id in users then 1 else 0;
      users := users - {id};
    }

    // ---------------------------------------------------------------- logs

    function GetObservationLogById(id: int): (r: Option<LogView>)
      reads this
      ensures r.Some? <==> id in logs
      ensures r.Some? ==> r.value.logId == id && r.value.log == logs[id]
      ensures r.Some? ==> r.value.username == (if logs[id].userId in users then Some(users[logs[id].userId].username) else None)
      ensures r.Some? ==> r.value.objectName == (if logs[id].objectId in objects then Some(objects[logs[id].objectId].name) else None)
    {
      if id !in logs then None
      else
        var l := logs[id];
        Some(LogView(
          id,
          l,
          if l.userId in users then Some(users[l.userId].username) else None,
          if l.objectId in objects then Some(objects[l.objectId].name) else None))
    }

    /** INSERT INTO ObservationLogs; returns the new LogID. */
    method CreateObservationLog(l: ObservationLog) returns (id: int)
      requires Valid()
      modifies this`logs, this`nextLogId
      ensures Valid()
      ensures id > 0 && id !in old(logs) && logs == old(logs)[id := l]
    {
      id := nextLogId;
      logs := logs[id := l];
      nextLogId := nextLogId + 1;
    }

    /** UPDATE ObservationLogs WHERE LogID = id; returns the rows affected. */
    method UpdateObservationLog(id: int, l: ObservationLog) returns (rows: nat)
      requires Valid()
      modifies this`logs
      ensures Valid()
      ensures rows == (if id in old(logs) then 1 else 0)
      ensures logs == if id in old(logs) then old(logs)[id := l] else old(logs)
    {
      if id in logs {
        logs := logs[id := l];
        rows := 1;
      } else {
        rows := 0;
      }
    }

    /** DELETE FROM ObservationLogs WHERE LogID = id; returns the rows removed. */
    method DeleteObservationLog(id: int) returns (rows: nat)
      requires Valid()
      modifies this`logs
      ensures Valid()
      ensures rows == (if id in old(logs) then 1 else 0)
      ensures logs == old(logs) - {id}
    {
      rows := if id in logs then 1 else 0;
      logs := logs - {id};
    }

    // ---------------------------------------------------------------- constellations

    function GetConstellationById(id: int): (r: Option<Constellation>)
      reads this
      ensures r.Some? <==> id in constellations
      ensures r.Some? ==> r.value == constellations[id]
    {
      if id in constellations then Some(constellations[id]) else None
    }

    /** INSERT INTO Constellations (Name, Description, Abbreviation); returns
        the new ConstellationID. */
    method CreateConstellation(name: string, description: string, abbreviation: string) returns (id: int)
      requires Valid()
      modifies this`constellations, this`nextConstellationId
      ensures Valid()
      ensures id > 0 && id !in old(constellations)
      ensures constellations == old(constellations)[id := Constellation(name, description, abbreviation)]
    {
      id := nextConstellationId;
      constellations := constellations[id := Constellation(name, description, abbreviation)];
      nextConstellationId := nextConstellationId + 1;
    }

    /** UPDATE Constellations WHERE ConstellationID = id; returns the rows affected. */
    method UpdateConstellation(id: int, name: string, description: string, abbreviation: string) returns (rows: nat)
      requires Valid()
      modifies this`constellations
      ensures Valid()
      ensures rows == (if id in old(constellations) then 1 else 0)
      ensures constellations == if id in old(constellations)
        then old(constellations)[id := Constellation(name, description, abbreviation)]
        else old(constellations)
    {
      if id in constellations {
        constellations := constellations[id := Constellation(name, description, abbreviation)];
        rows := 1;
      } else {
        rows := 0;
      }
    }

    /** DELETE FROM Constellations WHERE ConstellationID = id; returns the rows removed. */
    method DeleteConstellation(id: int) returns (rows: nat)
      requires Valid()
      modifies this`constellations
      ensures Valid()
      ensures rows == (if id in old(constellations) then 1 else 0)
      ensures constellations == old(constellations) - {id}
    {
      rows := if id in constellations then 1 else 0;
      constellations := constellations - {id};
    }
  }
}
