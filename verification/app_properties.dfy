/**
 * Properties of the App state machine that span several steps: the guard never
 * re-fires on the component's own updates, re-submitting is idempotent, the
 * load-more cursor tracks the server through any number of pages, the comics
 * load-more failure leaves the prompt off for good, and the detail view is
 * independent of the list.
 */
module AppProperties {
  import opened Wrappers
  import opened MarvelService
  import opened AppState

  /** The first render shows the (empty) results list, no load-more prompt and no details. */
  lemma InitialRender()
    ensures ResultsElem(Initial()) == ResultsView([], "", Characters)
    ensures LoadMoreElem(Initial()) == None
    ensures DetailsElem(Initial()) == None
  {
  }

  // ----- the refetch guard -----

  /**
   * The update-fetch-update loop cannot happen: no step the component takes on its
   * own (starting or settling a fetch, selecting or closing a detail) makes the
   * guard fire again.
   */
  lemma OwnUpdatesNeverRefetch(s: State, ty: SearchType, d: Result<DataContainer, FetchError>)
    ensures Refetch(s, BeginFetch(s)) == None
    ensures Refetch(s, FetchSettled(s, d)) == None
    ensures Refetch(s, BeginMore(s)) == None
    ensures Refetch(s, MoreSettled(s, ty, d)) == None
    ensures Refetch(s, DetailSettled(s, d)) == None
    ensures Refetch(s, Closed(s)) == None
  {
  }

  /** Submitting the same term twice in a row: the second submission changes nothing. */
  lemma ResubmitIsNoop(s: State, term: string)
    ensures Submitted(Submitted(s, term), term) == Submitted(s, term)
  {
  }

  /** Choosing the same category twice in a row: the second choice changes nothing. */
  lemma ReselectIsNoop(s: State, ty: SearchType)
    ensures Selected(Selected(s, ty), ty) == Selected(s, ty)
  {
  }

  /** Submitting an empty term never starts a fetch; only the stored term changes. */
  lemma EmptyTermNeverFetches(s: State, ty: SearchType)
    ensures Submitted(s, "") == s.(searchTerm := "")
    ensures Selected(s.(searchTerm := ""), ty) == s.(searchTerm := "", searchType := ty)
  {
  }

  // ----- pagination -----

  /** The server honoured a request for the window starting at `offset`. */
  ghost predicate Served(d: DataContainer, offset: int) {
    d.offset == offset && d.count == |d.results|
  }

  /**
   * After a search answered honestly from offset 0, `canLoadMore` says exactly that
   * the server holds more items than the list now has.
   */
  lemma SearchCursor(s: State, d: DataContainer)
    requires Served(d, 0)
    ensures FetchSettled(s, Ok(d)).canLoadMore <==> d.total > |FetchSettled(s, Ok(d)).results|
  {
  }

  /**
   * A load-more asks for the window starting at the current list length; answered
   * honestly, `canLoadMore` again says exactly that the server holds more items
   * than the list now has.
   */
  lemma LoadMoreCursor(svc: Service, s: State, ty: SearchType, d: DataContainer)
    requires Served(d, |s.results|)
    ensures MoreRequest(svc, ty, s.searchTerm, |s.results|).params["offset"] == Num(|s.results|)
    ensures var t := MoreSettled(BeginMore(s), ty, Ok(d));
            t.canLoadMore <==> d.total > |t.results|
  {
  }

  /** The items of a run of pages, in server order. */
  function Flatten(pages: seq<DataContainer>): seq<Record> {
    if pages == [] then [] else pages[0].results + Flatten(pages[1..])
  }

  /** A run of load-mores, each begun and then settled with the next page. */
  function LoadPages(s: State, ty: SearchType, pages: seq<DataContainer>): State
    decreases |pages|
  {
    if pages == [] then s else LoadPages(MoreSettled(BeginMore(s), ty, Ok(pages[0])), ty, pages[1..])
  }

  /** Each page answers the request for the window that starts where the list ends. */
  ghost predicate ServedFrom(cursor: int, pages: seq<DataContainer>)
    decreases |pages|
  {
    pages == [] || (Served(pages[0], cursor) && ServedFrom(cursor + |pages[0].results|, pages[1..]))
  }

  /** Any number of load-mores only append: the list is the old list followed by every page. */
  lemma {:induction false} LoadPagesAppends(s: State, ty: SearchType, pages: seq<DataContainer>)
    ensures LoadPages(s, ty, pages).results == s.results + Flatten(pages)
    decreases |pages|
    ensures QueryKept(s, LoadPages(s, ty, pages))
    ensures LoadPages(s, ty, pages).selectedResult == s.selectedResult
    ensures pages != [] ==> !LoadPages(s, ty, pages).isLoadingMore
  {
    if pages != [] {
      var s1 := MoreSettled(BeginMore(s), ty, Ok(pages[0]));
      LoadPagesAppends(s1, ty, pages[1..]);
      assert s1.results == s.results + pages[0].results;
      assert s.results + pages[0].results + Flatten(pages[1..]) == s.results + Flatten(pages);
    }
  }

  /**
   * Through any number of honestly served load-mores, `canLoadMore` keeps saying
   * exactly that the server's total exceeds the number of items on the list.
   */
  lemma {:induction false} LoadPagesCursor(s: State, ty: SearchType, pages: seq<DataContainer>)
    requires pages != [] && ServedFrom(|s.results|, pages)
    ensures var t := LoadPages(s, ty, pages);
            t.canLoadMore <==> pages[|pages| - 1].total > |t.results|
    decreases |pages|
  {
    var s1 := MoreSettled(BeginMore(s), ty, Ok(pages[0]));
    assert |s1.results| == |s.results| + |pages[0].results|;
    if |pages| > 1 {
      LoadPagesCursor(s1, ty, pages[1..]);
      assert pages[1..][|pages[1..]| - 1] == pages[|pages| - 1];
    }
  }

  /**
   * A characters search for a term with 60 matches, served 20 at a time: 20 items
   * and more to load, then 40 from offset 20, then 60 from offset 40 and no prompt.
   */
  lemma SixtyMatchesScenario(svc: Service, s: State, p1: seq<Record>, p2: seq<Record>, p3: seq<Record>)
    requires |p1| == 20 && |p2| == 20 && |p3| == 20
    requires s.searchType == Characters && s.searchTerm != "Spider" && !s.isLoadingMore
    ensures var s1 := FetchSettled(Submitted(s, "Spider"), Ok(DataContainer(0, 20, 60, 20, p1)));
            && s1.results == p1 && s1.canLoadMore && LoadMoreElem(s1) == Some(Characters)
            && MoreRequest(svc, Characters, s1.searchTerm, |s1.results|).params["offset"] == Num(20)
            && var s2 := MoreSettled(BeginMore(s1), Characters, Ok(DataContainer(20, 20, 60, 20, p2)));
               && s2.results == p1 + p2 && s2.canLoadMore
               && MoreRequest(svc, Characters, s2.searchTerm, |s2.results|).params["offset"] == Num(40)
               && var s3 := MoreSettled(BeginMore(s2), Characters, Ok(DataContainer(40, 20, 60, 20, p3)));
                  && s3.results == p1 + p2 + p3 && |s3.results| == 60
                  && !s3.canLoadMore && LoadMoreElem(s3) == None
  {
  }

  /** A search with no matches shows an empty list and no load-more prompt. */
  lemma NoMatchesScenario(s: State, term: string)
    requires s.searchType == Comics && term != "" && term != s.searchTerm && !s.isLoadingMore
    ensures var t := FetchSettled(Submitted(s, term), Ok(DataContainer(0, 20, 0, 0, [])));
            && ResultsElem(t) == ResultsView([], term, Comics) && !t.canLoadMore && LoadMoreElem(t) == None
  {
  }

  /** A failed search shows the error view and keeps the previous results. */
  lemma FailedSearchScenario(s: State, term: string, e: FetchError)
    requires term != "" && term != s.searchTerm
    ensures var t := FetchSettled(Submitted(s, term), Err(e));
            && t.hasError && !t.isLoading && t.results == s.results && ResultsElem(t) == ErrorView
  {
  }

  // ----- the load-more failure asymmetry -----

  /**
   * A step the user or a settling request can take without a load-more being
   * started: submitting, choosing a category, a search settling, a detail
   * settling, closing the details, or an earlier comics load-more failing.
   */
  datatype Step =
    | Submit(term: string)
    | Select(ty: SearchType)
    | SearchSettles(d: Result<DataContainer, FetchError>)
    | DetailSettles(d: Result<DataContainer, FetchError>)
    | Close
    | ComicsMoreFails(e: FetchError)

  function Apply(s: State, step: Step): State {
    match step
    case Submit(term) => Submitted(s, term)
    case Select(ty) => Selected(s, ty)
    case SearchSettles(d) => FetchSettled(s, d)
    case DetailSettles(d) => DetailSettled(s, d)
    case Close => Closed(s)
    case ComicsMoreFails(e) => MoreSettled(s, Comics, Err(e))
  }

  function Run(s: State, steps: seq<Step>): State
    decreases |steps|
  {
    if steps == [] then s else Run(Apply(s, steps[0]), steps[1..])
  }

  /**
   * While `isLoadingMore` is set no load-more of either category can start, since
   * the prompt is withheld; and no step that remains available clears the flag.
   */
  lemma {:induction false} LoadMoreFlagPersists(s: State, steps: seq<Step>)
    requires s.isLoadingMore
    ensures Run(s, steps).isLoadingMore && LoadMoreElem(Run(s, steps)) == None
    decreases |steps|
  {
    if steps != [] {
      LoadMoreFlagPersists(Apply(s, steps[0]), steps[1..]);
    }
  }

  /**
   * After a comics load-more fails, `isLoadingMore` stays set, so the load-more
   * prompt is never offered again, whatever searches, category changes and
   * detail views follow.
   */
  lemma ComicsLoadMoreFailureSticks(s: State, e: FetchError, steps: seq<Step>)
    requires LoadMoreElem(s) == Some(Comics)
    ensures var failed := MoreSettled(BeginMore(s), Comics, Err(e));
            && failed.hasError && failed.isLoadingMore
            && Run(failed, steps).isLoadingMore && LoadMoreElem(Run(failed, steps)) == None
  {
    LoadMoreFlagPersists(MoreSettled(BeginMore(s), Comics, Err(e)), steps);
  }

  /**
   * After a characters load-more fails, the next successful search offers the
   * prompt again exactly when its page says more is available.
   */
  lemma CharactersLoadMoreFailureRecovers(s: State, e: FetchError, term: string, d: DataContainer)
    requires LoadMoreElem(s) == Some(Characters)
    requires term != "" && term != s.searchTerm
    ensures var failed := MoreSettled(BeginMore(s), Characters, Err(e));
            && failed.hasError && !failed.isLoadingMore
            && LoadMoreElem(FetchSettled(Submitted(failed, term), Ok(d)))
                 == (if MorePagesAvailable(d) then Some(Characters) else None)
  {
  }

  /**
   * Nothing keeps the two loading flags apart: a search submitted while a
   * load-more is in flight leaves both set.
   */
  lemma LoadingFlagsCanOverlap(s: State, term: string)
    requires term != "" && term != s.searchTerm
    ensures var t := Submitted(BeginMore(s), term);
            t.isLoading && t.isLoadingMore && LoadMoreElem(t) == None
  {
  }

  // ----- details -----

  /**
   * A detail fetch, whatever its outcome, leaves the list and the load-more prompt
   * as they were; closing afterwards always removes the details view.
   */
  lemma DetailIndependentOfList(s: State, d: Result<DataContainer, FetchError>)
    ensures ResultsElem(DetailSettled(s, d)) == ResultsElem(s)
    ensures LoadMoreElem(DetailSettled(s, d)) == LoadMoreElem(s)
    ensures DetailsElem(Closed(DetailSettled(s, d))) == None
  {
  }

  /** A detail fetch that returns a record opens the details view on it, titled per category. */
  lemma DetailOpensOnFirstRecord(s: State, d: DataContainer)
    requires |d.results| > 0
    ensures var t := DetailSettled(s, Ok(d));
            && DetailsElem(t).Some?
            && DetailsElem(t).value.title
                 == (if s.searchType == Characters then d.results[0].name else d.results[0].title)
  {
  }

  /**
   * The details title is read from the category selected now, not the one the
   * record was fetched for: a character left open while the category switches to
   * comics shows its (absent) `title`.
   */
  lemma DetailTitleFollowsCurrentCategory(s: State, r: Record)
    requires s.selectedResult == Some(r) && r.title == None && r.name.Some?
    ensures DetailsElem(s.(searchType := Characters)).value.title == r.name
    ensures DetailsElem(Selected(s.(searchType := Characters), Comics)).value.title == None
  {
  }
}
