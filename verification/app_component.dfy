/**
 * The `App` component (src/App.js) as an object whose fields are its state.
 * Each `setState` call is an immediate field update. Each asynchronous fetch is
 * two atomic steps: a method that sets the loading flags and returns the request
 * it sends, and a method that applies the transport's outcome when it settles.
 * Every step that changes state is specified by the AppState transition it
 * performs; the by-id fetches change nothing and are specified by their request.
 */
module AppComponent {
  import opened Wrappers
  import opened MarvelService
  import opened AppState

  class App {
    var searchTerm: string
    var searchType: SearchType
    var results: seq<Record>
    var isLoading: bool
    var isLoadingMore: bool
    var hasError: bool
    var canLoadMore: bool
    var selectedResult: Option<Record>
    const marvelService: Service

    /** The component's state as a value, as `render` and `componentDidUpdate` see it. */
    function Snapshot(): State
      reads this
    {
      State(searchTerm, searchType, results, isLoading, isLoadingMore, hasError, canLoadMore, selectedResult)
    }

    constructor (apiKey: string)
      ensures Snapshot() == Initial()
      ensures marvelService == Service(apiKey)
    {
      searchTerm, searchType, results := "", Characters, [];
      isLoading, isLoadingMore, hasError, canLoadMore := false, false, false, false;
      selectedResult := None;
      marvelService := Service(apiKey);
    }

    // ----- user intents from the search bar -----

    /** `onSubmit`: store the term, then run the update guard against the previous state. */
    method OnSubmit(term: string) returns (req: Option<Request>)
      modifies this
      ensures Snapshot() == Submitted(old(Snapshot()), term)
      ensures req.Some? <==> term != "" && term != old(searchTerm)
      ensures req.Some? ==> req.value == SearchRequest(marvelService, searchType, term)
    {
      var prev := Snapshot();
      searchTerm := term;
      req := ComponentDidUpdate(prev);
    }

    /** `onSelect`: store the category, then run the update guard against the previous state. */
    method OnSelect(ty: SearchType) returns (req: Option<Request>)
      modifies this
      ensures Snapshot() == Selected(old(Snapshot()), ty)
      ensures req.Some? <==> searchTerm != "" && ty != old(searchType)
      ensures req.Some? ==> req.value == SearchRequest(marvelService, ty, searchTerm)
    {
      var prev := Snapshot();
      searchType := ty;
      req := ComponentDidUpdate(prev);
    }

    /** The lifecycle hook: start the fetch the guard chooses, or nothing. */
    method ComponentDidUpdate(prev: State) returns (req: Option<Request>)
      modifies this
      ensures Refetch(prev, old(Snapshot())).None? ==> Snapshot() == old(Snapshot()) && req == None
      ensures Refetch(prev, old(Snapshot())).Some? ==>
                Snapshot() == BeginFetch(old(Snapshot()))
                && req == Some(SearchRequest(marvelService, searchType, searchTerm))
    {
      var fetch := Refetch(prev, Snapshot());
      match fetch
      case Some(Characters) =>
        var r := FetchCharacters();
        req := Some(r);
      case Some(Comics) =>
        var r := FetchComics();
        req := Some(r);
      case None =>
        req := None;
    }

    // ----- characters -----

    method FetchCharacters() returns (req: Request)
      modifies this
      ensures Snapshot() == BeginFetch(old(Snapshot()))
      ensures req == SearchRequest(marvelService, Characters, searchTerm)
    {
      isLoading, hasError := true, false;
      req := GetCharacters(marvelService, map["nameStartsWith" := Str(searchTerm)]);
    }

    method CharactersFetched(raw: Result<Response, FetchError>)
      modifies this
      ensures Snapshot() == FetchSettled(old(Snapshot()), Unwrap(raw))
    {
      match Unwrap(raw)
      case Ok(data) =>
        results, isLoading, canLoadMore := data.results, false, data.total > data.offset + data.count;
      case Err(_) =>
        isLoading, hasError := false, true;
    }

    method FetchMoreCharacters() returns (req: Request)
      modifies this
      ensures Snapshot() == BeginMore(old(Snapshot()))
      ensures req == MoreRequest(marvelService, Characters, searchTerm, |results|)
    {
      isLoadingMore := true;
      req := GetCharacters(marvelService, map["nameStartsWith" := Str(searchTerm), "offset" := Num(|results|)]);
    }

    method MoreCharactersFetched(raw: Result<Response, FetchError>)
      modifies this
      ensures Snapshot() == MoreSettled(old(Snapshot()), Characters, Unwrap(raw))
    {
      match Unwrap(raw)
      case Ok(data) =>
        results := results + data.results;
        isLoadingMore, canLoadMore := false, data.total > data.offset + data.count;
      case Err(_) =>
        isLoadingMore, hasError := false, true;
    }

    /** Sends the by-id request; the state changes only when it settles. */
    method FetchCharacter(id: nat) returns (req: Request)
      ensures req == DetailRequest(marvelService, Characters, id)
    {
      req := GetCharacter(marvelService, id, map[]);
    }

    method CharacterFetched(raw: Result<Response, FetchError>)
      modifies this
      ensures Snapshot() == DetailSettled(old(Snapshot()), Unwrap(raw))
    {
      match Unwrap(raw)
      case Ok(data) =>
        selectedResult := if |data.results| > 0 then Some(data.results[0]) else None;
      case Err(_) =>
    }

    // ----- comics -----

    method FetchComics() returns (req: Request)
      modifies this
      ensures Snapshot() == BeginFetch(old(Snapshot()))
      ensures req == SearchRequest(marvelService, Comics, searchTerm)
    {
      isLoading, hasError := true, false;
      req := GetComics(marvelService, map["titleStartsWith" := Str(searchTerm)]);
    }

    method ComicsFetched(raw: Result<Response, FetchError>)
      modifies this
      ensures Snapshot() == FetchSettled(old(Snapshot()), Unwrap(raw))
    {
      match Unwrap(raw)
      case Ok(data) =>
        results, isLoading, canLoadMore := data.results, false, data.total > data.offset + data.count;
      case Err(_) =>
        isLoading, hasError := false, true;
    }

    method FetchMoreComics() returns (req: Request)
      modifies this
      ensures Snapshot() == BeginMore(old(Snapshot()))
      ensures req == MoreRequest(marvelService, Comics, searchTerm, |results|)
    {
      isLoadingMore := true;
      req := GetComics(marvelService, map["titleStartsWith" := Str(searchTerm), "offset" := Num(|results|)]);
    }

    /** Unlike the characters path, a failure here clears `isLoading`, not `isLoadingMore`. */
    method MoreComicsFetched(raw: Result<Response, FetchError>)
      modifies this
      ensures Snapshot() == MoreSettled(old(Snapshot()), Comics, Unwrap(raw))
    {
      match Unwrap(raw)
      case Ok(data) =>
        results := results + data.results;
        isLoadingMore, canLoadMore := false, data.total > data.offset + data.count;
      case Err(_) =>
        isLoading, hasError := false, true;
    }

    method FetchComic(id: nat) returns (req: Request)
      ensures req == DetailRequest(marvelService, Comics, id)
    {
      req := GetComic(marvelService, id, map[]);
    }

    method ComicFetched(raw: Result<Response, FetchError>)
      modifies this
      ensures Snapshot() == DetailSettled(old(Snapshot()), Unwrap(raw))
    {
      match Unwrap(raw)
      case Ok(data) =>
        selectedResult := if |data.results| > 0 then Some(data.results[0]) else None;
      case Err(_) =>
    }

    // ----- details view -----

    /** The details view's `onClose`. */
    method CloseDetails()
      modifies this
      ensures Snapshot() == Closed(old(Snapshot()))
    {
      selectedResult := None;
    }
  }
}
