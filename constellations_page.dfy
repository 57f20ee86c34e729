/** The constellation list page: a search box, an add form in a modal, a
    delete button per card, and a bundled list to fall back on when the
    backend cannot be reached. */
module ConstellationsPage {
  import opened Js
  import opened Text
  import opened Seqs
  import opened ApiRows

  const NameRequiredMessage := "Constellation name is required"
  const FallbackMessage := "Failed to load constellations from API — using local fallback"

  /** The add form's fields. */
  datatype ConstellationForm = ConstellationForm(name: string, description: string, abbreviation: string)

  const EmptyForm := ConstellationForm("", "", "")

  /** The search term occurs, ignoring case, in the name or the description. */
  predicate MatchesSearch(c: ConstellationRow, term: string) {
    || Includes(ToLower(StrOr(c.name, "")), ToLower(term))
    || Includes(ToLower(StrOr(c.description, "")), ToLower(term))
  }

  /** `filteredConstellations`: exactly the matching rows, in order. */
  function FilteredConstellations(constellations: seq<ConstellationRow>, term: string): (r: seq<ConstellationRow>)
    ensures |r| <= |constellations|
    ensures forall x :: x in r <==> x in constellations && MatchesSearch(x, term)
    ensures forall x :: multiset(r)[x] == if MatchesSearch(x, term) then multiset(constellations)[x] else 0
    ensures IsSubsequence(r, constellations)
  {
    var p := (c: ConstellationRow) => MatchesSearch(c, term);
    FilterSpec(constellations, p);
    Filter(constellations, p)
  }

  /** An empty search keeps every constellation. */
  lemma EmptySearchKeepsAll(constellations: seq<ConstellationRow>)
    ensures FilteredConstellations(constellations, "") == constellations
  {
    assert ToLower("") == "";
    forall i | 0 <= i < |constellations|
      ensures MatchesSearch(constellations[i], "")
    {
      IncludesEmpty(ToLower(StrOr(constellations[i].name, "")));
    }
    FilterAll(constellations, (c: ConstellationRow) => MatchesSearch(c, ""));
  }

  /** The page state. */
  class ConstellationListPage {
    var constellations: seq<ConstellationRow>
    var error: string
    var loading: bool
    var searchTerm: string
    var showAddModal: bool
    var formData: ConstellationForm

    constructor ()
      ensures constellations == [] && error == "" && loading && searchTerm == ""
      ensures !showAddModal && formData == EmptyForm
    {
      constellations := [];
      error := "";
      loading := true;
      searchTerm := "";
      showAddModal := false;
      formData := EmptyForm;
    }

    /** The cards on screen. */
    function Visible(): (r: seq<ConstellationRow>)
      reads this
      ensures r == FilteredConstellations(constellations, searchTerm)
      ensures |r| <= |constellations| && IsSubsequence(r, constellations)
      ensures forall x :: x in r <==> x in constellations && MatchesSearch(x, searchTerm)
    {
      FilteredConstellations(constellations, searchTerm)
    }

    /** `loadConstellations`, given the answer of the list fetch (`Ok(None)`
        when it carried no data) and the bundled list. Any answer that
        arrives is used, even an empty one; only a failed fetch falls back. */
    method LoadConstellations(answer: Result<Option<seq<ConstellationRow>>>, fallback: seq<ConstellationRow>)
      modifies this`constellations, this`error, this`loading
      ensures !loading
      ensures answer.Ok? && answer.value.Some? ==> constellations == answer.value.value && error == ""
      ensures answer.Ok? && answer.value.None? ==> constellations == [] && error == ""
      ensures answer.Err? ==> constellations == fallback && error == FallbackMessage
    {
      loading := true;
      error := "";
      if answer.Err? {
        constellations := fallback;
        error := FallbackMessage;
      } else if answer.value.None? {
        constellations := [];
      } else {
        constellations := answer.value.value;
      }
      loading := false;
    }

    /** `deleteConstellation`, given the confirmation answer and the DELETE outcome. */
    method DeleteConstellation(id: int, confirmed: bool, outcome: Outcome)
      modifies this`constellations, this`error
      ensures !confirmed ==> constellations == old(constellations) && error == old(error)
      ensures confirmed && outcome.Pass? ==>
        constellations == RemoveKey(old(constellations), ConstellationKey, id) && error == old(error)
      ensures confirmed && outcome.Fail? ==> constellations == old(constellations) && error == outcome.message
    {
      if !confirmed {
        return;
      }
      if outcome.Fail? {
        error := outcome.message;
      } else {
        constellations := RemoveKey(constellations, ConstellationKey, id);
      }
    }

    /** `handleAddConstellation`, given the outcome of the POST. `sent` is the
        form the POST carried, `None` when no request was made. The list is
        then reloaded by a separate `LoadConstellations` call. */
    method HandleAddConstellation(outcome: Outcome) returns (sent: Option<ConstellationForm>)
      modifies this`formData, this`showAddModal, this`error
      ensures old(formData.name) == "" ==>
        && sent == None && error == NameRequiredMessage
        && formData == old(formData) && showAddModal == old(showAddModal)
      ensures old(formData.name) != "" ==> sent == Some(old(formData))
      ensures old(formData.name) != "" && outcome.Pass? ==>
        formData == EmptyForm && !showAddModal && error == old(error)
      ensures old(formData.name) != "" && outcome.Fail? ==>
        formData == old(formData) && showAddModal == old(showAddModal) && error == outcome.message
    {
      if formData.name == "" {
        error := NameRequiredMessage;
        return None;
      }
      sent := Some(formData);
      if outcome.Fail? {
        error := outcome.message;
      } else {
        formData := EmptyForm;
        showAddModal := false;
      }
    }
  }
}
