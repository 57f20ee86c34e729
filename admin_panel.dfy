/** The admin panel: overview counts per object type, the user table with
    per-user observation counts, the user detail card, and the add and
    delete actions on types, users, objects and constellations. */
module AdminPanel {
  import opened Js
  import opened Text
  import opened Seqs
  import opened ApiRows

  /** A card of the types tab: `{ id, name, description, count }`. */
  datatype TypeSummary = TypeSummary(id: int, name: Option<string>, description: string, count: nat)

  /** What the five list fetches of `loadData` answer together. */
  datatype Snapshot = Snapshot(
    types: seq<TypeRow>,
    constellations: seq<ConstellationRow>,
    users: seq<UserRow>,
    objects: seq<ObjectRow>,
    logs: seq<LogRow>)

  datatype TypeForm = TypeForm(typeName: string, description: string)
  datatype ConstellationForm = ConstellationForm(name: string, description: string, abbreviation: string)

  const TypeNameAlert := "Please enter a type name"
  const ConstellationNameAlert := "Please enter a constellation name"

  function TypeNameOf(o: ObjectRow): Option<string> { o.typeName }
  function UserIdOf(l: LogRow): Option<int> { l.userId }
  function ObjectIdOf(l: LogRow): Option<int> { l.objectId }
  function TypeSummaryKey(t: TypeSummary): int { t.id }

  /** `objData.filter(o => o.TypeName === name).length`: how often that type
      name occurs among the objects. */
  function TypeCount(objData: seq<ObjectRow>, name: Option<string>): (n: nat)
    ensures n == multiset(Map(objData, TypeNameOf))[name]
    ensures n <= |objData|
  {
    var p := (o: ObjectRow) => o.typeName == name;
    FilterCountIsMultiplicity(objData, p, TypeNameOf, name);
    |Filter(objData, p)|
  }

  /** One type card; a missing description reads 'Object type'. */
  function Summarize(t: TypeRow, objData: seq<ObjectRow>): (s: TypeSummary)
    ensures s.id == t.typeId && s.name == t.typeNameColumn
    ensures s.description == (if StrTruthy(t.description) then t.description.value else "Object type")
    ensures s.count == multiset(Map(objData, TypeNameOf))[t.typeNameColumn]
  {
    TypeSummary(t.typeId, t.typeNameColumn, StrOr(t.description, "Object type"), TypeCount(objData, t.typeNameColumn))
  }

  /** The type cards, one per fetched type, in order. */
  function TypeSummaries(typesData: seq<TypeRow>, objData: seq<ObjectRow>): (r: seq<TypeSummary>)
    ensures |r| == |typesData|
    ensures forall i :: 0 <= i < |typesData| ==> r[i] == Summarize(typesData[i], objData)
  {
    Map(typesData, (t: TypeRow) => Summarize(t, objData))
  }

  /** `logs.filter(l => l.UserID === userId)`: that user's logs, in order. */
  function UserLogs(logs: seq<LogRow>, userId: int): (r: seq<LogRow>)
    ensures forall x :: x in r <==> x in logs && x.userId == Some(userId)
    ensures forall x :: multiset(r)[x] == if x.userId == Some(userId) then multiset(logs)[x] else 0
    ensures IsSubsequence(r, logs)
  {
    var p := (l: LogRow) => l.userId == Some(userId);
    FilterSpec(logs, p);
    Filter(logs, p)
  }

  /** The "Observations" column: how often that UserID occurs among the logs. */
  function ObservationCount(logs: seq<LogRow>, userId: int): (n: nat)
    ensures n == multiset(Map(logs, UserIdOf))[Some(userId)]
    ensures n <= |logs|
  {
    FilterCountIsMultiplicity(logs, (l: LogRow) => l.userId == Some(userId), UserIdOf, Some(userId));
    |UserLogs(logs, userId)|
  }

  /** The objects a user has observed: `new Set(userLogs.map(l => l.ObjectID))`. */
  function TrackedObjects(logs: seq<LogRow>, userId: int): (s: set<Option<int>>)
    ensures forall x :: x in s <==> exists l :: l in logs && l.userId == Some(userId) && l.objectId == x
  {
    var u := UserLogs(logs, userId);
    TrackedObjectsMembership(logs, userId);
    Distinct(Map(u, ObjectIdOf))
  }

  lemma TrackedObjectsMembership(logs: seq<LogRow>, userId: int)
    ensures forall x :: x in Distinct(Map(UserLogs(logs, userId), ObjectIdOf))
                     <==> exists l :: l in logs && l.userId == Some(userId) && l.objectId == x
  {
    var u := UserLogs(logs, userId);
    forall x | exists l :: l in logs && l.userId == Some(userId) && l.objectId == x
      ensures x in Distinct(Map(u, ObjectIdOf))
    {
      var l :| l in logs && l.userId == Some(userId) && l.objectId == x;
      assert l in u;
      var j :| 0 <= j < |u| && u[j] == l;
      assert Map(u, ObjectIdOf)[j] == x;
    }
    forall x | x in Distinct(Map(u, ObjectIdOf))
      ensures exists l :: l in logs && l.userId == Some(userId) && l.objectId == x
    {
      var j :| 0 <= j < |u| && Map(u, ObjectIdOf)[j] == x;
      assert u[j] in u;
    }
  }

  /** "Objects Tracked" never exceeds "Total Observations". */
  lemma TrackedNeverExceedsObservations(logs: seq<LogRow>, userId: int)
    ensures |TrackedObjects(logs, userId)| <= ObservationCount(logs, userId)
  {
    DistinctBound(Map(UserLogs(logs, userId), ObjectIdOf));
  }

  /** Recent activity: the first five logs, or all of them when fewer. */
  function RecentActivity(logs: seq<LogRow>): (r: seq<LogRow>)
    ensures r <= logs && |r| <= 5
    ensures |r| == 5 || r == logs
  {
    Take(logs, 5)
  }

  /** A user's recent observations: the first five of that user's logs, in
      the list's order. */
  function RecentForUser(logs: seq<LogRow>, userId: int): (r: seq<LogRow>)
    ensures |r| <= 5 && r <= UserLogs(logs, userId)
    ensures |r| == 5 || r == UserLogs(logs, userId)
    ensures forall x :: x in r ==> x in logs && x.userId == Some(userId)
    ensures IsSubsequence(r, logs)
  {
    var u := UserLogs(logs, userId);
    PrefixOfSubsequence(Take(u, 5), u, logs);
    Take(u, 5)
  }

  /** The page state. */
  class Panel {
    var objectTypes: seq<TypeSummary>
    var constellations: seq<ConstellationRow>
    var users: seq<UserRow>
    var objects: seq<ObjectRow>
    var logs: seq<LogRow>
    var loading: bool
    var showAddModal: bool
    var newType: TypeForm
    var newConstellation: ConstellationForm

    constructor ()
      ensures objectTypes == [] && constellations == [] && users == [] && objects == [] && logs == []
      ensures loading && !showAddModal
      ensures newType == TypeForm("", "") && newConstellation == ConstellationForm("", "", "")
    {
      objectTypes := [];
      constellations := [];
      users := [];
      objects := [];
      logs := [];
      loading := true;
      showAddModal := false;
      newType := TypeForm("", "");
      newConstellation := ConstellationForm("", "", "");
    }

    /** `loadData`, given the joint answer of the five fetches; if any fails
        nothing is replaced. */
    method LoadData(answer: Result<Snapshot>)
      modifies this`objectTypes, this`constellations, this`users, this`objects, this`logs, this`loading
      ensures !loading
      ensures answer.Ok? ==>
        && objectTypes == TypeSummaries(answer.value.types, answer.value.objects)
        && constellations == answer.value.constellations && users == answer.value.users
        && objects == answer.value.objects && logs == answer.value.logs
      ensures answer.Err? ==>
        && objectTypes == old(objectTypes) && constellations == old(constellations)
        && users == old(users) && objects == old(objects) && logs == old(logs)
    {
      if answer.Ok? {
        var snap := answer.value;
        objectTypes := TypeSummaries(snap.types, snap.objects);
        constellations := snap.constellations;
        users := snap.users;
        objects := snap.objects;
        logs := snap.logs;
      }
      loading := false;
    }

    /** `deleteType`; a failure is only logged to the console. */
    method DeleteType(id: int, confirmed: bool, outcome: Outcome)
      modifies this`objectTypes
      ensures confirmed && outcome.Pass? ==> objectTypes == RemoveKey(old(objectTypes), TypeSummaryKey, id)
      ensures !confirmed || outcome.Fail? ==> objectTypes == old(objectTypes)
    {
      if confirmed && outcome.Pass? {
        objectTypes := RemoveKey(objectTypes, TypeSummaryKey, id);
      }
    }

    /** `deleteUser`; the reload that follows a success is a separate
        `LoadData` call. A failure raises an alert. */
    method DeleteUser(id: int, confirmed: bool, outcome: Outcome) returns (alert: Option<string>)
      modifies this`users
      ensures confirmed && outcome.Pass? ==> users == RemoveKey(old(users), UserKey, id) && alert == None
      ensures !confirmed || outcome.Fail? ==> users == old(users)
      ensures alert == (if confirmed && outcome.Fail? then Some("Failed to delete user. Please try again.") else None)
    {
      alert := None;
      if confirmed {
        if outcome.Pass? {
          users := RemoveKey(users, UserKey, id);
        } else {
          alert := Some("Failed to delete user. Please try again.");
        }
      }
    }

    /** `deleteConstellation`, as `DeleteUser`. */
    method DeleteConstellation(id: int, confirmed: bool, outcome: Outcome) returns (alert: Option<string>)
      modifies this`constellations
      ensures confirmed && outcome.Pass? ==>
        constellations == RemoveKey(old(constellations), ConstellationKey, id) && alert == None
      ensures !confirmed || outcome.Fail? ==> constellations == old(constellations)
      ensures alert == (if confirmed && outcome.Fail? then Some("Failed to delete constellation. Please try again.") else None)
    {
      alert := None;
      if confirmed {
        if outcome.Pass? {
          constellations := RemoveKey(constellations, ConstellationKey, id);
        } else {
          alert := Some("Failed to delete constellation. Please try again.");
        }
      }
    }

    /** `deleteObject`, as `DeleteUser`. */
    method DeleteObject(id: int, confirmed: bool, outcome: Outcome) returns (alert: Option<string>)
      modifies this`objects
      ensures confirmed && outcome.Pass? ==> objects == RemoveKey(old(objects), ObjectKey, id) && alert == None
      ensures !confirmed || outcome.Fail? ==> objects == old(objects)
      ensures alert == (if confirmed && outcome.Fail? then Some("Failed to delete object. Please try again.") else None)
    {
      alert := None;
      if confirmed {
        if outcome.Pass? {
          objects := RemoveKey(objects, ObjectKey, id);
        } else {
          alert := Some("Failed to delete object. Please try again.");
        }
      }
    }

    /** `handleAddType`, given the outcome of the POST. A name that trims to
        nothing is refused before any request; otherwise the form is sent as
        typed. `sent` is what the POST carried, `None` when none was made. */
    method HandleAddType(outcome: Outcome) returns (sent: Option<TypeForm>, alert: Option<string>)
      modifies this`newType, this`showAddModal
      ensures Trim(old(newType.typeName)) == "" ==>
        sent == None && alert == Some(TypeNameAlert) && newType == old(newType) && showAddModal == old(showAddModal)
      ensures Trim(old(newType.typeName)) != "" ==> sent == Some(old(newType))
      ensures Trim(old(newType.typeName)) != "" && outcome.Pass? ==>
        alert == None && newType == TypeForm("", "") && !showAddModal
      ensures Trim(old(newType.typeName)) != "" && outcome.Fail? ==>
        && alert == Some("Failed to create object type. Please try again.")
        && newType == old(newType) && showAddModal == old(showAddModal)
    {
      if Trim(newType.typeName) == "" {
        return None, Some(TypeNameAlert);
      }
      sent := Some(newType);
      if outcome.Fail? {
        alert := Some("Failed to create object type. Please try again.");
      } else {
        alert := None;
        newType := TypeForm("", "");
        showAddModal := false;
      }
    }

    /** `handleAddConstellation`, as `HandleAddType`. */
    method HandleAddConstellation(outcome: Outcome) returns (sent: Option<ConstellationForm>, alert: Option<string>)
      modifies this`newConstellation, this`showAddModal
      ensures Trim(old(newConstellation.name)) == "" ==>
        && sent == None && alert == Some(ConstellationNameAlert)
        && newConstellation == old(newConstellation) && showAddModal == old(showAddModal)
      ensures Trim(old(newConstellation.name)) != "" ==> sent == Some(old(newConstellation))
      ensures Trim(old(newConstellation.name)) != "" && outcome.Pass? ==>
        alert == None && newConstellation == ConstellationForm("", "", "") && !showAddModal
      ensures Trim(old(newConstellation.name)) != "" && outcome.Fail? ==>
        && alert == Some("Failed to create constellation: " + outcome.message)
        && newConstellation == old(newConstellation) && showAddModal == old(showAddModal)
    {
      if Trim(newConstellation.name) == "" {
        return None, Some(ConstellationNameAlert);
      }
      sent := Some(newConstellation);
      if outcome.Fail? {
        alert := Some("Failed to create constellation: " + outcome.message);
      } else {
        alert := None;
        newConstellation := ConstellationForm("", "", "");
        showAddModal := false;
      }
    }
  }

  /** The add-type guard refuses exactly the names made only of whitespace. */
  lemma AddTypeGuardIsBlank(name: string)
    ensures Trim(name) == "" <==> Blank(name)
  {
    TrimEmptyIff(name);
  }
}
