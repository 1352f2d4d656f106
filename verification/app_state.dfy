/**
 * The state of the `App` component (src/App.js) as a value, with the pure parts of
 * the component: the refetch guard of `componentDidUpdate`, the requests each fetch
 * sends, the state each `setState` step produces, and the view choices of `render`.
 * The class in AppComponent changes its fields exactly as these functions say.
 */
module AppState {
  import opened Wrappers
  import opened MarvelService

  /** `searchType`: the strings 'Characters' and 'Comics'. */
  datatype SearchType = Characters | Comics

  /** `this.state`. The flags the constructor leaves undefined read as false. */
  datatype State = State(
    searchTerm: string,
    searchType: SearchType,
    results: seq<Record>,
    isLoading: bool,
    isLoadingMore: bool,
    hasError: bool,
    canLoadMore: bool,
    selectedResult: Option<Record>)

  /** The state the constructor sets up. */
  function Initial(): (s: State)
    ensures s.searchTerm == "" && s.searchType == Characters
    ensures s.results == [] && s.selectedResult == None
    ensures !s.isLoading && !s.isLoadingMore && !s.hasError && !s.canLoadMore
  {
    State("", Characters, [], false, false, false, false, None)
  }

  /** The search query did not change between two states. */
  ghost predicate QueryKept(s: State, t: State) {
    t.searchTerm == s.searchTerm && t.searchType == s.searchType
  }

  // ----- componentDidUpdate -----

  /**
   * The guard run after every state change: which fetch, if any, the change from
   * `prev` to `cur` starts. A non-empty term and a changed term or type are needed,
   * and the current type picks the fetch.
   */
  function Refetch(prev: State, cur: State): (r: Option<SearchType>)
    ensures r.Some? <==> cur.searchTerm != "" && !QueryKept(prev, cur)
    ensures r.Some? ==> r.value == cur.searchType
  {
    if cur.searchTerm != "" && (cur.searchTerm != prev.searchTerm || cur.searchType != prev.searchType)
    then Some(cur.searchType)
    else None
  }

  // ----- the requests the fetches send -----

  /** The list URL of a category. */
  function ListUrl(ty: SearchType): string {
    match ty
    case Characters => CharactersUrl
    case Comics => ComicsUrl
  }

  /** Characters are filtered by name prefix, comics by title prefix. */
  function FilterKey(ty: SearchType): string {
    match ty
    case Characters => "nameStartsWith"
    case Comics => "titleStartsWith"
  }

  /** The request of `fetchCharacters` / `fetchComics`: no offset, so the first page. */
  function SearchRequest(svc: Service, ty: SearchType, term: string): (r: Request)
    ensures r.url == ListUrl(ty)
    ensures r.params.Keys == {FilterKey(ty), "apikey"}
    ensures r.params[FilterKey(ty)] == Str(term) && r.params["apikey"] == Str(svc.apiKey)
  {
    match ty
    case Characters => GetCharacters(svc, map["nameStartsWith" := Str(term)])
    case Comics => GetComics(svc, map["titleStartsWith" := Str(term)])
  }

  /** The request of `fetchMoreCharacters` / `fetchMoreComics`, asking from `offset` on. */
  function MoreRequest(svc: Service, ty: SearchType, term: string, offset: nat): (r: Request)
    ensures r.url == ListUrl(ty)
    ensures r.params.Keys == {FilterKey(ty), "offset", "apikey"}
    ensures r.params[FilterKey(ty)] == Str(term) && r.params["offset"] == Num(offset)
    ensures r.params["apikey"] == Str(svc.apiKey)
  {
    match ty
    case Characters => GetCharacters(svc, map["nameStartsWith" := Str(term), "offset" := Num(offset)])
    case Comics => GetComics(svc, map["titleStartsWith" := Str(term), "offset" := Num(offset)])
  }

  /** The request of `fetchCharacter(id)` / `fetchComic(id)`: the credential only. */
  function DetailRequest(svc: Service, ty: SearchType, id: nat): (r: Request)
    ensures IsProperPrefix(ListUrl(ty), r.url) && IdOfUrl(ListUrl(ty), r.url) == Some(id)
    ensures r.url[|ListUrl(ty)| + 1] == '0' ==> id == 0 && |r.url| == |ListUrl(ty)| + 2
    ensures r.params == AuthConfig(svc)
  {
    match ty
    case Characters => GetCharacter(svc, id, map[])
    case Comics => GetComic(svc, id, map[])
  }

  // ----- the setState steps -----

  /** The pagination rule: the server holds more than the window just served ends at. */
  predicate MorePagesAvailable(d: DataContainer) {
    d.total > d.offset + d.count
  }

  /** `onSubmit` followed by the guard: stores the term and, if the guard fires, begins a search. */
  function Submitted(s: State, term: string): (t: State)
    ensures t.searchTerm == term && t.searchType == s.searchType
    ensures t.results == s.results && t.selectedResult == s.selectedResult
    ensures term != "" && term != s.searchTerm ==> t.isLoading && !t.hasError
    ensures term != "" && term != s.searchTerm ==> t == BeginFetch(s.(searchTerm := term))
    ensures !(term != "" && term != s.searchTerm) ==> t == s.(searchTerm := term)
  {
    var next := s.(searchTerm := term);
    if Refetch(s, next).Some? then BeginFetch(next) else next
  }

  /** `onSelect` followed by the guard: stores the type and, if the guard fires, begins a search. */
  function Selected(s: State, ty: SearchType): (t: State)
    ensures t.searchTerm == s.searchTerm && t.searchType == ty
    ensures t.results == s.results && t.selectedResult == s.selectedResult
    ensures s.searchTerm != "" && ty != s.searchType ==> t.isLoading && !t.hasError
    ensures s.searchTerm != "" && ty != s.searchType ==> t == BeginFetch(s.(searchType := ty))
    ensures !(s.searchTerm != "" && ty != s.searchType) ==> t == s.(searchType := ty)
  {
    var next := s.(searchType := ty);
    if Refetch(s, next).Some? then BeginFetch(next) else next
  }

  /** The first `setState` of a search: loading, error cleared, results untouched. */
  function BeginFetch(s: State): (t: State)
    ensures t.isLoading && !t.hasError
    ensures t.(isLoading := s.isLoading, hasError := s.hasError) == s
  {
    s.(isLoading := true, hasError := false)
  }

  /**
   * How a search settles. Success replaces the results wholesale and recomputes
   * `canLoadMore`; failure sets the error and keeps the old results. Both clear
   * `isLoading` and leave the query, the selection and `isLoadingMore` alone.
   */
  function FetchSettled(s: State, d: Result<DataContainer, FetchError>): (t: State)
    ensures QueryKept(s, t) && t.selectedResult == s.selectedResult
    ensures !t.isLoading && t.isLoadingMore == s.isLoadingMore
    ensures d.Ok? ==> t.results == d.value.results && t.hasError == s.hasError
    ensures d.Ok? ==> t.canLoadMore == MorePagesAvailable(d.value)
    ensures d.Err? ==> t.results == s.results && t.hasError && t.canLoadMore == s.canLoadMore
  {
    match d
    case Ok(data) => s.(results := data.results, isLoading := false, canLoadMore := MorePagesAvailable(data))
    case Err(_) => s.(isLoading := false, hasError := true)
  }

  /** The first `setState` of a load-more. */
  function BeginMore(s: State): (t: State)
    ensures t.isLoadingMore
    ensures t.(isLoadingMore := s.isLoadingMore) == s
  {
    s.(isLoadingMore := true)
  }

  /**
   * How a load-more of category `ty` settles. Success appends the page to the
   * results (old prefix kept), clears `isLoadingMore` and recomputes `canLoadMore`.
   * Failure sets the error and keeps the results; the characters path clears
   * `isLoadingMore`, the comics path clears `isLoading` instead.
   */
  function MoreSettled(s: State, ty: SearchType, d: Result<DataContainer, FetchError>): (t: State)
    ensures QueryKept(s, t) && t.selectedResult == s.selectedResult
    ensures d.Ok? ==> |t.results| == |s.results| + |d.value.results|
    ensures d.Ok? ==> t.results[..|s.results|] == s.results && t.results[|s.results|..] == d.value.results
    ensures d.Ok? ==> !t.isLoadingMore && t.canLoadMore == MorePagesAvailable(d.value)
    ensures d.Ok? ==> t.isLoading == s.isLoading && t.hasError == s.hasError
    ensures d.Err? ==> t.results == s.results && t.hasError && t.canLoadMore == s.canLoadMore
    ensures d.Err? && ty == Characters ==> !t.isLoadingMore && t.isLoading == s.isLoading
    ensures d.Err? && ty == Comics ==> !t.isLoading && t.isLoadingMore == s.isLoadingMore
  {
    match d
    case Ok(data) => s.(results := s.results + data.results, isLoadingMore := false,
                        canLoadMore := MorePagesAvailable(data))
    case Err(_) =>
      match ty
      case Characters => s.(isLoadingMore := false, hasError := true)
      case Comics => s.(isLoading := false, hasError := true)
  }

  /**
   * How a detail fetch settles. Success selects `results[0]` (undefined, so
   * nothing, when the list is empty); failure changes nothing. No other field moves.
   */
  function DetailSettled(s: State, d: Result<DataContainer, FetchError>): (t: State)
    ensures t.(selectedResult := s.selectedResult) == s
    ensures d.Err? ==> t == s
    ensures d.Ok? && |d.value.results| > 0 ==> t.selectedResult == Some(d.value.results[0])
    ensures d.Ok? && |d.value.results| == 0 ==> t.selectedResult == None
  {
    match d
    case Ok(data) => s.(selectedResult := if |data.results| > 0 then Some(data.results[0]) else None)
    case Err(_) => s
  }

  /** The details view's `onClose`: deselects unconditionally. */
  function Closed(s: State): (t: State)
    ensures t.selectedResult == None
    ensures t.(selectedResult := s.selectedResult) == s
  {
    s.(selectedResult := None)
  }

  // ----- render -----

  /** The element shown in the results slot; a results list carries its click handler's category. */
  datatype View =
    | ErrorView
    | LoadingView(searchTerm: string)
    | ResultsView(results: seq<Record>, searchTerm: string, onResultClick: SearchType)

  /** Error wins over loading, loading over the list. */
  function ResultsElem(s: State): (v: View)
    ensures v.ErrorView? <==> s.hasError
    ensures v.LoadingView? <==> !s.hasError && s.isLoading
    ensures v.LoadingView? ==> v.searchTerm == s.searchTerm
    ensures v.ResultsView? ==> v.results == s.results && v.searchTerm == s.searchTerm && v.onResultClick == s.searchType
  {
    if s.hasError then ErrorView
    else if s.isLoading then LoadingView(s.searchTerm)
    else ResultsView(s.results, s.searchTerm, s.searchType)
  }

  /** The load-more prompt, given as the category whose load-more its click runs. */
  function LoadMoreElem(s: State): (h: Option<SearchType>)
    ensures h.Some? <==> s.canLoadMore && !s.hasError && !s.isLoading && !s.isLoadingMore
    ensures h.Some? ==> h.value == s.searchType
  {
    if s.canLoadMore && !s.hasError && !s.isLoading && !s.isLoadingMore then Some(s.searchType) else None
  }

  datatype Details = Details(image: string, title: Option<string>, description: string)

  /** The details view: shown exactly when a result is selected, titled by the current category. */
  function DetailsElem(s: State): (d: Option<Details>)
    ensures d.Some? <==> s.selectedResult.Some?
    ensures d.Some? && s.searchType == Characters ==> d.value.title == s.selectedResult.value.name
    ensures d.Some? && s.searchType == Comics ==> d.value.title == s.selectedResult.value.title
    ensures d.Some? ==> d.value.description == s.selectedResult.value.description
    ensures d.Some? ==>
              d.value.image == s.selectedResult.value.thumbnail.path + "." + s.selectedResult.value.thumbnail.extension
  {
    match s.selectedResult
    case None => None
    case Some(r) =>
      Some(Details(r.thumbnail.path + "." + r.thumbnail.extension,
                   if s.searchType == Characters then r.name else r.title,
                   r.description))
  }
}
