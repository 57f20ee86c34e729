/** The celestial-object list page: the catalogue view with a search box, a
    type selector and a magnitude range, and a delete button per card. */
module CelestialObjectsPage {
  import opened Js
  import opened Text
  import opened Seqs
  import opened ApiRows

  /** The three filter controls: the search term, the selected type and the
      inclusive magnitude range. */
  datatype ObjectFilter = ObjectFilter(searchTerm: string, selectedType: string, magnitudeMin: real, magnitudeMax: real)

  /** The search term occurs, ignoring case, in the name or the constellation
      name (a missing one reads as ""). */
  predicate MatchesSearch(o: ObjectRow, term: string) {
    || Includes(ToLower(StrOr(o.name, "")), ToLower(term))
    || Includes(ToLower(StrOr(o.constellationName, "")), ToLower(term))
  }

  /** "All" admits every type; any other choice demands that exact type name. */
  predicate MatchesType(o: ObjectRow, selectedType: string) {
    selectedType == "All" || StrOr(o.typeName, "") == selectedType
  }

  /** `obj.Magnitude || 0`. */
  function MagnitudeOf(o: ObjectRow): real {
    RealOrZero(o.magnitude)
  }

  predicate MatchesMagnitude(o: ObjectRow, lo: real, hi: real) {
    lo <= MagnitudeOf(o) <= hi
  }

  /** An object is on screen when it passes all three tests. */
  predicate Shown(o: ObjectRow, f: ObjectFilter) {
    MatchesSearch(o, f.searchTerm) && MatchesType(o, f.selectedType) && MatchesMagnitude(o, f.magnitudeMin, f.magnitudeMax)
  }

  /** `filteredObjects`: exactly the shown objects, as often as they occur and
      in their original order. */
  function FilteredObjects(objects: seq<ObjectRow>, f: ObjectFilter): (r: seq<ObjectRow>)
    ensures |r| <= |objects|
    ensures forall x :: x in r <==> x in objects && Shown(x, f)
    ensures forall x :: multiset(r)[x] == if Shown(x, f) then multiset(objects)[x] else 0
    ensures IsSubsequence(r, objects)
  {
    var p := (o: ObjectRow) => Shown(o, f);
    FilterSpec(objects, p);
    Filter(objects, p)
  }

  /** The label a type contributes to the selector: `t.TypeName || t.typeName`. */
  function TypeLabel(t: TypeRow): Option<string> {
    StrOrElse(t.typeNameColumn, t.typeNameField)
  }

  /** The type selector: "All" followed by one label per fetched type, in order. */
  function TypeOptions(types: seq<TypeRow>): (r: seq<Option<string>>)
    ensures |r| == |types| + 1 && r[0] == Some("All")
    ensures r[1..] == Map(types, TypeLabel)
  {
    [Some("All")] + Map(types, TypeLabel)
  }

  /** An empty search term matches every object. */
  lemma EmptySearchMatchesEverything(o: ObjectRow)
    ensures MatchesSearch(o, "")
  {
    assert ToLower("") == "";
    IncludesEmpty(ToLower(StrOr(o.name, "")));
  }

  /** With no search term, type "All" and a range holding every magnitude,
      the whole list is shown unchanged. */
  lemma OpenFilterShowsAll(objects: seq<ObjectRow>, f: ObjectFilter)
    requires f.searchTerm == "" && f.selectedType == "All"
    requires forall i :: 0 <= i < |objects| ==> MatchesMagnitude(objects[i], f.magnitudeMin, f.magnitudeMax)
    ensures FilteredObjects(objects, f) == objects
  {
    forall i | 0 <= i < |objects|
      ensures Shown(objects[i], f)
    {
      EmptySearchMatchesEverything(objects[i]);
    }
    FilterAll(objects, (o: ObjectRow) => Shown(o, f));
  }

  /** Choosing a type narrows the "All" view to exactly its objects of that
      type, in the same order. */
  lemma SelectedTypeNarrowsAllView(objects: seq<ObjectRow>, f: ObjectFilter, t: string)
    requires t != "All"
    ensures FilteredObjects(objects, f.(selectedType := t))
         == Filter(FilteredObjects(objects, f.(selectedType := "All")), (o: ObjectRow) => StrOr(o.typeName, "") == t)
  {
    var all := f.(selectedType := "All");
    var one := f.(selectedType := t);
    var p := (o: ObjectRow) => Shown(o, all);
    var q := (o: ObjectRow) => StrOr(o.typeName, "") == t;
    var pq := (o: ObjectRow) => Shown(o, one);
    forall x: ObjectRow
      ensures pq(x) == (p(x) && q(x))
    {
    }
    FilterFilter(objects, p, q, pq);
  }

  /** Rows from the backend carry no `Magnitude`, so each reads as 0: the
      range has no effect as long as it contains 0 ... */
  lemma MagnitudeRangeIgnoredForApiRows(objects: seq<ObjectRow>, f: ObjectFilter, g: ObjectFilter)
    requires forall i :: 0 <= i < |objects| ==> objects[i].magnitude.None?
    requires f.searchTerm == g.searchTerm && f.selectedType == g.selectedType
    requires f.magnitudeMin <= 0.0 <= f.magnitudeMax && g.magnitudeMin <= 0.0 <= g.magnitudeMax
    ensures FilteredObjects(objects, f) == FilteredObjects(objects, g)
  {
    FilterCongruent(objects, (o: ObjectRow) => Shown(o, f), (o: ObjectRow) => Shown(o, g));
  }

  /** ... and hides everything once it excludes 0, whatever the true
      apparent magnitudes are. */
  lemma RangeWithoutZeroHidesApiRows(objects: seq<ObjectRow>, f: ObjectFilter)
    requires forall i :: 0 <= i < |objects| ==> objects[i].magnitude.None?
    requires !(f.magnitudeMin <= 0.0 <= f.magnitudeMax)
    ensures FilteredObjects(objects, f) == []
  {
    FilterNone(objects, (o: ObjectRow) => Shown(o, f));
  }

  /** The page state. */
  class ObjectListPage {
    var objects: seq<ObjectRow>
    var objectTypes: seq<Option<string>>
    var error: string
    var loading: bool
    var searchTerm: string
    var selectedType: string
    var magnitudeMin: real
    var magnitudeMax: real

    constructor ()
      ensures objects == [] && objectTypes == [Some("All")] && error == "" && loading
      ensures searchTerm == "" && selectedType == "All" && magnitudeMin == 0.0 && magnitudeMax == 15.0
    {
      objects := [];
      objectTypes := [Some("All")];
      error := "";
      loading := true;
      searchTerm := "";
      selectedType := "All";
      magnitudeMin := 0.0;
      magnitudeMax := 15.0;
    }

    function Controls(): ObjectFilter
      reads this
    {
      ObjectFilter(searchTerm, selectedType, magnitudeMin, magnitudeMax)
    }

    /** The cards on screen. */
    function Visible(): (r: seq<ObjectRow>)
      reads this
      ensures r == FilteredObjects(objects, Controls())
      ensures |r| <= |objects| && IsSubsequence(r, objects)
      ensures forall x :: x in r <==> x in objects && Shown(x, Controls())
    {
      FilteredObjects(objects, Controls())
    }

    /** `loadData`, given the answers of the type and object fetches. The
        types are fetched first; when that fails the objects are not fetched. */
    method LoadData(types: Result<seq<TypeRow>>, objectsData: Result<seq<ObjectRow>>)
      modifies this`objects, this`objectTypes, this`error, this`loading
      ensures !loading
      ensures types.Err? ==> objectTypes == old(objectTypes) && objects == old(objects) && error == types.message
      ensures types.Ok? ==> objectTypes == TypeOptions(types.value)
      ensures types.Ok? && objectsData.Ok? ==> objects == objectsData.value && error == ""
      ensures types.Ok? && objectsData.Err? ==> objects == old(objects) && error == objectsData.message
    {
      loading := true;
      error := "";
      if types.Err? {
        error := types.message;
      } else {
        objectTypes := TypeOptions(types.value);
        if objectsData.Err? {
          error := objectsData.message;
        } else {
          objects := objectsData.value;
        }
      }
      loading := false;
    }

    /** `deleteObject`, given the user's answer to the confirmation dialog and
        the outcome of the DELETE request. */
    method DeleteObject(id: int, confirmed: bool, outcome: Outcome)
      modifies this`objects, this`error
      ensures !confirmed ==> objects == old(objects) && error == old(error)
      ensures confirmed && outcome.Pass? ==> objects == RemoveKey(old(objects), ObjectKey, id) && error == old(error)
      ensures confirmed && outcome.Fail? ==> objects == old(objects) && error == outcome.message
    {
      if !confirmed {
        return;
      }
      if outcome.Fail? {
        error := outcome.message;
      } else {
        objects := RemoveKey(objects, ObjectKey, id);
      }
    }
  }
}
