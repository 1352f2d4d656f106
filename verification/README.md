# Marvel catalogue search: a Dafny model of the search controller

This project models the core of a single-page search interface for the Marvel
catalogue (characters and comics). The user types a name prefix; the app
fetches the first page of matches, can load further pages ("load more"), and
opens a details view for a clicked entry. The component also has a category
setter (`onSelect`, App.js:132), but in the source as it stands nothing calls it:
the search bar (src/components/SearchBar.js) renders no category control and
never uses that callback, and the category control component is imported
nowhere. So `searchType` stays `'Characters'`, and every comics path, including
the comics load-more asymmetry below, cannot be reached from the UI as shipped.
The model keeps them, as the component's own code defines them.

Two parts are modelled:

- **The `App` component** (`src/App.js`). Its state (`searchTerm`, `searchType`,
  `results`, `isLoading`, `isLoadingMore`, `hasError`, `canLoadMore`,
  `selectedResult`) is the field set of the class `AppComponent.App`. Each
  `setState` is an immediate field update. Each asynchronous fetch is split into
  two atomic steps: a method that sets the loading flags and returns the request
  it sends, and a method that applies the transport's outcome when it settles.
  Every method that changes state is specified by a transition function in
  `AppState` applied to `old(Snapshot())`; `FetchCharacter` and `FetchComic`
  change nothing and are specified by the request they return (`DetailRequest`). The pure parts of the component live in `AppState`: the
  `componentDidUpdate` refetch guard, and the view choices made in `render`.
  Lemmas in `AppProperties` relate several steps.
- **The request-building half of `MarvelService`** (`src/services/MarvelService.js`):
  the endpoint table, the credential overlay on caller parameters, by-id URLs, and
  the unwrapping of the `response.data.data` envelope. All of these are pure functions.

Files: `wrappers.dfy` (Option, Result), `marvel_service.dfy`, `app_state.dfy`,
`app_component.dfy`, `app_properties.dfy`.

Behaviour of the code that the model keeps, including its quirks:

- A failed comics load-more clears `isLoading` and leaves `isLoadingMore` set
  (App.js:299). The characters path clears `isLoadingMore` (App.js:235).
  `ComicsLoadMoreFailureSticks` shows the consequence: no load-more of either
  category can start while `isLoadingMore` is set, and none of the remaining
  steps (searches, category changes, detail fetches, closing) clears it, so the
  load-more prompt never comes back in that session (`LoadMoreFlagPersists`).
- A successful detail fetch stores `results[0]`. When the returned list is empty,
  that is `undefined`, so the details view closes (App.js:252, 305).
- The filter parameter is `nameStartsWith` for characters and `titleStartsWith`
  for comics. There is no shared filter key.
- Nothing keeps `isLoading` and `isLoadingMore` exclusive (`LoadingFlagsCanOverlap`).
- The details title is read from the category selected when the view renders
  (App.js:113), not from the category the record was fetched under
  (`DetailTitleFollowsCurrentCategory`).

## Model

| member | source | states |
|---|---|---|
| MarvelService.Endpoints | src/services/MarvelService.js:14-21 | Four names. `comic` and `comics` map to the comics URL, `character` and `characters` to the characters URL, and the two URLs differ |
| MarvelService.AuthConfig | src/services/MarvelService.js:38-40 | Exactly one key, `apikey`, holding the key stored at construction |
| MarvelService.WithAuth | src/services/MarvelService.js:55 | Result keys are the caller's keys plus `apikey`. `apikey` is always the stored key, even when the caller gave one; every other caller entry is kept unchanged |
| MarvelService.ById | src/services/MarvelService.js:64 | `base/id` has the base as a proper prefix, the id can be read back from it (decimal round trip), and its digits have no leading zero |
| MarvelService.GetCharacters | src/services/MarvelService.js:54-60 | The request goes to the bare characters URL, with the caller's parameters overlaid by the credential |
| MarvelService.GetCharacter | src/services/MarvelService.js:62-68 | The singular endpoint name gives a URL that extends the characters list URL and encodes exactly the id, with no leading zero; params are overlaid by the credential |
| MarvelService.GetComics | src/services/MarvelService.js:75-81 | The request goes to the bare comics URL, with the caller's parameters overlaid by the credential |
| MarvelService.GetComic | src/services/MarvelService.js:83-89 | A URL that extends the comics list URL and encodes exactly the id, with no leading zero; params are overlaid by the credential |
| MarvelService.Unwrap | src/services/MarvelService.js:58-59 | A resolved request yields `response.data.data`, whatever the body's code and status. A rejection passes through unchanged |
| AppState.Initial | src/App.js:22-27 | Empty term, type Characters, no results, nothing selected, every flag false |
| AppState.Refetch | src/App.js:158-172 | A fetch starts iff the term is non-empty and the term or type changed; the current type picks the fetch |
| AppState.SearchRequest | src/App.js:196 | Goes to the category's list URL. Params are exactly the filter key (`nameStartsWith` for characters, `titleStartsWith` for comics, line 273) holding the term, plus the credential |
| AppState.MoreRequest | src/App.js:224-227 | Like the search request, plus `offset` equal to the current number of results (comics: lines 288-291) |
| AppState.DetailRequest | src/App.js:250-251 | The by-id URL of the category's list URL and the id, with no leading zero; params are the credential only (comics: line 304) |
| AppState.Submitted | src/App.js:131 | Stores the term. Iff the term is non-empty and new, the search begins (loading on, error off, every other field as after storing the term); otherwise only the term changes. Results and selection are kept |
| AppState.Selected | src/App.js:132 | Stores the type. Iff the term is non-empty and the type changed, the search begins (loading on, error off, every other field as after storing the type); otherwise only the type changes |
| AppState.BeginFetch | src/App.js:194 | Sets `isLoading`, clears `hasError`, and changes nothing else; results are untouched |
| AppState.FetchSettled | src/App.js:197-205 | On success, results become exactly the fetched list and `canLoadMore` is `total > offset + count`. On failure, `hasError` is set and the results are kept. Both clear `isLoading` and keep query, selection and `isLoadingMore` |
| AppState.BeginMore | src/App.js:222 | Sets `isLoadingMore` and nothing else |
| AppState.MoreSettled | src/App.js:228-236 | On success, the old results are a prefix, the fetched page is the suffix, `isLoadingMore` is cleared and `canLoadMore` recomputed. On failure, `hasError` is set and results kept; characters clear `isLoadingMore`, comics (lines 297-300) clear `isLoading` instead |
| AppState.DetailSettled | src/App.js:252-253 | Success selects the first returned record, or nothing if none came back. Failure changes nothing. No other field moves |
| AppState.Closed | src/App.js:117 | Deselects unconditionally; nothing else changes |
| AppState.ResultsElem | src/App.js:65-76 | Error view iff `hasError`; loading view (with the term) iff no error and loading; otherwise the results list of the current results and term, whose click handler matches the current type |
| AppState.LoadMoreElem | src/App.js:89-96 | The prompt is offered iff `canLoadMore`, no error, not loading and not loading more; its handler matches the current type |
| AppState.DetailsElem | src/App.js:109-120 | Shown iff a result is selected. The title is `name` for Characters and `title` for Comics; the image is `path.extension` and the description is the record's |
| AppComponent.App.constructor | src/App.js:19-40 | The state is the initial state, and the service holds the given key |
| AppComponent.App.OnSubmit | src/App.js:131 | The new state is `Submitted(old, term)`. A request is returned iff the term is non-empty and new, and it is the search request for the current type |
| AppComponent.App.OnSelect | src/App.js:132 | The new state is `Selected(old, type)`. A request is returned iff the term is non-empty and the type changed |
| AppComponent.App.ComponentDidUpdate | src/App.js:158-172 | If the guard does not fire, the state is unchanged and no request is made. Otherwise the search for the current type begins and its request is returned |
| AppComponent.App.FetchCharacters | src/App.js:193-196 | Begins a search (`BeginFetch`) and returns the `nameStartsWith` request |
| AppComponent.App.CharactersFetched | src/App.js:197-205 | The new state is `FetchSettled` of the unwrapped transport outcome |
| AppComponent.App.FetchMoreCharacters | src/App.js:221-227 | Sets `isLoadingMore` and returns the request with `offset` equal to the result count |
| AppComponent.App.MoreCharactersFetched | src/App.js:228-236 | The new state is `MoreSettled` on the characters path |
| AppComponent.App.FetchCharacter | src/App.js:250-251 | Changes no state; returns the characters by-id request |
| AppComponent.App.CharacterFetched | src/App.js:252-253 | The new state is `DetailSettled` of the unwrapped outcome |
| AppComponent.App.FetchComics | src/App.js:270-273 | Begins a search and returns the `titleStartsWith` request |
| AppComponent.App.ComicsFetched | src/App.js:274-282 | The new state is `FetchSettled` of the unwrapped transport outcome |
| AppComponent.App.FetchMoreComics | src/App.js:285-291 | Sets `isLoadingMore` and returns the request with `offset` equal to the result count |
| AppComponent.App.MoreComicsFetched | src/App.js:292-300 | The new state is `MoreSettled` on the comics path; a failure clears `isLoading` |
| AppComponent.App.FetchComic | src/App.js:303-304 | Changes no state; returns the comics by-id request |
| AppComponent.App.ComicFetched | src/App.js:305-306 | The new state is `DetailSettled` of the unwrapped outcome |
| AppComponent.App.CloseDetails | src/App.js:117 | The new state is `Closed(old)` |
| AppProperties.InitialRender | src/App.js:22-27 | The first render shows an empty results list, no load-more prompt and no details |
| AppProperties.OwnUpdatesNeverRefetch | src/App.js:148-172 | No step the component takes on its own starts a fetch through the guard: beginning or settling a search or load-more, a detail result, closing. So the update-fetch-update loop cannot occur |
| AppProperties.ResubmitIsNoop | src/App.js:164-167 | Submitting the same term twice in a row: the second submission changes nothing |
| AppProperties.ReselectIsNoop | src/App.js:164-167 | Choosing the same type twice in a row: the second choice changes nothing |
| AppProperties.EmptyTermNeverFetches | src/App.js:165 | With an empty term, neither submitting nor switching to either type starts a fetch; only the stored field changes |
| AppProperties.SearchCursor | src/App.js:200 | For a page served from offset 0, `canLoadMore` iff the server's total exceeds the result count |
| AppProperties.LoadMoreCursor | src/App.js:226-231 | The load-more asks for an offset equal to the result count. For a page served from that offset, `canLoadMore` afterwards iff the total exceeds the new result count |
| AppProperties.LoadPagesAppends | src/App.js:228-231 | Any run of successful load-mores gives the old results followed by every page in order. Query and selection are kept |
| AppProperties.LoadPagesCursor | src/App.js:221-231 | Through any run of honestly served load-mores, `canLoadMore` iff the last page's total exceeds the result count |
| AppProperties.SixtyMatchesScenario | src/App.js:193-232 | 60 matches served 20 at a time: 20 results with more to load, offsets 20 then 40, then 60 results and no prompt |
| AppProperties.NoMatchesScenario | src/App.js:270-278 | A comics search with total 0 shows an empty list and no prompt |
| AppProperties.FailedSearchScenario | src/App.js:193-205 | A failed search shows the error view, stops loading and keeps the previous results |
| AppProperties.LoadMoreFlagPersists | src/App.js:89-96 | From a state with `isLoadingMore` set, any run of submits, category changes, settling searches, settling detail fetches, closes and failed comics load-mores keeps the flag set and the prompt withheld |
| AppProperties.ComicsLoadMoreFailureSticks | src/App.js:297-300 | After a failed comics load-more, `isLoadingMore` stays set and the prompt is never offered again, whatever run of searches, category changes and detail steps follows |
| AppProperties.CharactersLoadMoreFailureRecovers | src/App.js:233-236 | After a failed characters load-more, the next successful search offers the prompt exactly when its page has more |
| AppProperties.LoadingFlagsCanOverlap | src/App.js:194 | A search submitted during a load-more leaves both loading flags set |
| AppProperties.DetailIndependentOfList | src/App.js:250-254 | A detail fetch leaves the results view and the prompt as they were; closing afterwards always hides the details |
| AppProperties.DetailOpensOnFirstRecord | src/App.js:252 | A detail fetch returning records opens the details on the first one, titled by the current category |
| AppProperties.DetailTitleFollowsCurrentCategory | src/App.js:113 | A character left open while the type switches to Comics is titled by its absent `title` |

## Left out

- The HTTP call (axios), promises and the interleaving of in-flight requests. Each settlement is an atomic step taking the transport outcome as a parameter. Overlapping requests can settle in any order; that race is not modelled.
- HTTP status handling is not modelled: the transport rejects non-2xx responses, and the model only sees the rejection.
- `console.error` on the failure paths: logging that changes no state.
- All JSX markup and the presentational components (`ResultDetails`, `SearchBar`, `SearchTypeControls`, `ResultsList`, `ResultCard`, `NoResults`, `Loading`). The view choices of `render` are modelled as values. The `NoResults` choice made inside `ResultsList` is not.
- `src/index.js`, which reads the key from the environment and mounts the DOM. The key is a constructor parameter. A missing key (`undefined`) is not modelled.
- React's batching and merging of `setState`: each update is applied immediately.
- The `stories` and `urls` fields of a record, which are only handed to the details view.
- The optional `config` argument of the by-id lookups: the app never passes one, so `DetailRequest` uses an empty map. The `GetCharacter`/`GetComic` functions do take it.
- Malformed response bodies: a body without a `data` object, or a load-more or by-id body without `results` (App.js:229, 252, 293, 305), makes the `.then` handler throw, and the `.catch` treats it like a transport failure; a search body without `results` (App.js:198, 275) stores `undefined` as the results, and the failure only shows when the list renders. The typed `DataContainer` always has results, so the model represents neither.
