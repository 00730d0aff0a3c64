/**
  components/common/SearchBar/SearchBar.tsx: the search form as a state machine over
  `searchTerm`, `loading`, `error` and the route last pushed to the router.
 */
module Search {
  import opened Text
  import opened Records

  const EmptyTermMessage: string := "Vänligen ange ett Pokémon-namn"
  const NotFoundMessage: string := "Pokémon hittades inte. Kontrollera namnet och försök igen."

  /** `searchTerm.toLowerCase().trim()`, the name sent to the API. */
  function QueryOf(term: string): (q: string)
    ensures q == Lower(Trim(term))
    ensures q == "" <==> AllWhitespace(term)
  {
    TrimLowerCommute(term);
    Trim(Lower(term))
  }

  /** The query holds no ASCII capital: PokéAPI names are lower case. */
  lemma QueryHasNoCapital(term: string)
    ensures forall i :: 0 <= i < |QueryOf(term)| ==> !('A' <= QueryOf(term)[i] <= 'Z')
  {
    LowerHasNoCapital(Trim(term));
  }

  /** The route a response leads to: an ok response whose body parses, padded id in the path. */
  function ResolvedRoute(o: FetchOutcome): (route: Option<string>)
    ensures route.Some? <==> o.Responded? && o.ok && o.json.Some?
    ensures route.Some? ==>
      && |route.value| >= |RoutePrefix| && route.value[..|RoutePrefix|] == RoutePrefix
      && AllDigits(route.value[|RoutePrefix|..])
      && DecimalValue(route.value[|RoutePrefix|..]) == o.json.value.id
    ensures route.Some? ==>
      route.value == DetailRoute(o.json.value.id) && |route.value| >= |RoutePrefix| + 3
  {
    if o.Responded? && o.ok && o.json.Some? then
      DetailRouteIdentifiesId(o.json.value.id);
      Some(DetailRoute(o.json.value.id))
    else None
  }

  /** The state of the `SearchBar` component; `route` records `router.push`. */
  class SearchBar {
    var searchTerm: string
    var loading: bool
    var error: string
    var route: Option<string>

    constructor ()
      ensures searchTerm == "" && !loading && error == "" && route == None
    {
      searchTerm := "";
      loading := false;
      error := "";
      route := None;
    }

    /** The submit button's `disabled`: while loading, or while the term is blank. */
    predicate SubmitDisabled()
      reads this
      ensures SubmitDisabled() <==> loading || AllWhitespace(searchTerm)
    {
      loading || Trim(searchTerm) == ""
    }

    /** `handleInputChange`: store the new term and clear any error. */
    method HandleInputChange(value: string)
      modifies this`searchTerm, this`error
      ensures searchTerm == value && error == ""
    {
      searchTerm := value;
      if error != "" {
        error := "";
      }
    }

    /**
      `handleSearch` up to the request. A blank term sets the validation message and sends
      nothing; otherwise `loading` is set, the error cleared, and the query returned.
     */
    method BeginSearch() returns (query: Option<string>)
      modifies this`loading, this`error
      ensures AllWhitespace(searchTerm) ==>
        query == None && error == EmptyTermMessage && loading == old(loading)
      ensures !AllWhitespace(searchTerm) ==>
        query == Some(QueryOf(searchTerm)) && query.value != "" && loading && error == ""
    {
      var term := searchTerm;
      var trimmed := Trim(term);
      var q := QueryOf(term);
      assert trimmed == "" <==> AllWhitespace(term);
      assert q == "" <==> AllWhitespace(term);
      if trimmed == "" {
        error := EmptyTermMessage;
        query := None;
      } else {
        loading := true;
        error := "";
        query := Some(q);
      }
    }

    /**
      `handleSearch` after the request. Success pushes the detail route of the returned id;
      a rejected fetch, a non-ok status or an unparsable body sets the not-found message.
      `loading` ends false either way.
     */
    method FinishSearch(outcome: FetchOutcome)
      modifies this`loading, this`error, this`route
      ensures ResolvedRoute(outcome).Some? ==> route == ResolvedRoute(outcome) && error == old(error)
      ensures ResolvedRoute(outcome).None? ==> route == old(route) && error == NotFoundMessage
      ensures !loading
    {
      match outcome {
        case Rejected =>
          error := NotFoundMessage;
        case Responded(ok, json) =>
          if !ok {
            error := NotFoundMessage;
          } else if json.None? {
            error := NotFoundMessage;
          } else {
            route := Some(DetailRoute(json.value.id));
          }
      }
      loading := false;
    }

    /** `handleSearch`: `outcome` is what the request yields if one is made. */
    method HandleSearch(outcome: FetchOutcome) returns (query: Option<string>)
      modifies this`loading, this`error, this`route
      ensures searchTerm == old(searchTerm)
      ensures AllWhitespace(searchTerm) ==>
        query == None && error == EmptyTermMessage && loading == old(loading) && route == old(route)
      ensures !AllWhitespace(searchTerm) ==> query == Some(QueryOf(searchTerm)) && !loading
      ensures !AllWhitespace(searchTerm) && ResolvedRoute(outcome).Some? ==>
        route == ResolvedRoute(outcome) && error == ""
      ensures !AllWhitespace(searchTerm) && ResolvedRoute(outcome).None? ==>
        route == old(route) && error == NotFoundMessage
    {
      query := BeginSearch();
      if query.Some? {
        FinishSearch(outcome);
      }
    }
  }
}
