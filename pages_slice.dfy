/** The `pages` domain of the application state (`pagesSlice` in
    pagesSlice.ts): its reducers as methods of a class holding the slice's
    four fields, and each async thunk as the service call followed by the
    reducer case that handles its outcome. */
module PagesSlice {
  import opened Wrappers
  import opened Types
  import opened Storage
  import opened PagesService

  const FetchPagesFailed := "Failed to fetch pages"
  const SavePageFailed := "Failed to save page"

  /** What `publishPage.fulfilled` does to the list: replace the first entry
      with the page's id, and never append. */
  function ReplaceExisting(pages: seq<LandingPage>, page: LandingPage): (r: seq<LandingPage>)
    ensures HasId(pages, page.id) ==> exists j :: IsFirst(pages, j, page.id) && r == pages[j := page]
    ensures !HasId(pages, page.id) ==> r == pages
  {
    var i := FindIndex(pages, page.id);
    if i >= 0 then
      assert IsFirst(pages, i, page.id);
      pages[i := page]
    else pages
  }

  /** `if (state.currentPage?.id === page.id) state.currentPage = page`. */
  function SyncCurrent(current: Option<LandingPage>, page: LandingPage): (r: Option<LandingPage>)
    ensures r != current ==> current.Some? && current.value.id == page.id && r == Some(page)
    ensures current.Some? && current.value.id == page.id ==> r == Some(page)
  {
    if current.Some? && current.value.id == page.id then Some(page) else current
  }

  /** `if (state.currentPage?.id === pageId) state.currentPage = null`. */
  function ClearIfCurrent(current: Option<LandingPage>, pageId: string): (r: Option<LandingPage>)
    ensures r != current ==> current.Some? && current.value.id == pageId && r.None?
    ensures r.Some? ==> r.value.id != pageId
  {
    if current.Some? && current.value.id == pageId then None else current
  }

  class Slice {
    var pages: seq<LandingPage>
    var currentPage: Option<LandingPage>
    var isLoading: bool
    var error: Option<string>

    function State(): PagesState
      reads this
    {
      PagesState(pages, currentPage, isLoading, error)
    }

    /** `initialState`. */
    constructor ()
      ensures State() == PagesState([], None, false, None)
    {
      pages := [];
      currentPage := None;
      isLoading := false;
      error := None;
    }

    method SetCurrentPage(page: Option<LandingPage>)
      modifies this
      ensures State() == old(State()).(currentPage := page)
    {
      currentPage := page;
    }

    method ClearError()
      modifies this
      ensures State() == old(State()).(error := None)
    {
      error := None;
    }

    /** Spreads the patch over the current page; with no current page it does nothing. */
    method UpdateCurrentPageContent(patch: PagePatch)
      modifies this
      ensures old(currentPage).None? ==> State() == old(State())
      ensures old(currentPage).Some? ==>
                State() == old(State()).(currentPage := Some(ApplyPatch(old(currentPage).value, patch)))
    {
      if currentPage.Some? {
        currentPage := Some(ApplyPatch(currentPage.value, patch));
      }
    }

    /** `fetchPages.pending` and `savePage.pending`. */
    method Pending()
      modifies this
      ensures State() == old(State()).(isLoading := true, error := None)
    {
      isLoading := true;
      error := None;
    }

    /** `fetchPages.rejected` and `savePage.rejected`, with their own fallback
        messages: the lists and the current page stay as they were. */
    method Rejected(message: Option<string>, fallback: string)
      requires fallback == FetchPagesFailed || fallback == SavePageFailed
      modifies this
      ensures error.Some? && error.value != ""
      ensures State() == old(State()).(isLoading := false, error := Some(ErrorText(message, fallback)))
    {
      isLoading := false;
      error := Some(ErrorText(message, fallback));
    }

    /** `fetchPages.fulfilled`: the list is replaced wholesale; `error` is not touched. */
    method FetchPagesFulfilled(payload: seq<LandingPage>)
      modifies this
      ensures State() == old(State()).(isLoading := false, pages := payload)
    {
      isLoading := false;
      pages := payload;
    }

    /** `savePage.fulfilled`: upsert by id, and follow the current page when its id matches. */
    method SavePageFulfilled(page: LandingPage)
      modifies this
      ensures State() == old(State()).(isLoading := false,
                                       pages := Upsert(old(pages), page.id, page, page),
                                       currentPage := SyncCurrent(old(currentPage), page))
    {
      isLoading := false;
      var existingIndex := FindIndex(pages, page.id);
      if existingIndex >= 0 {
        pages := pages[existingIndex := page];
      } else {
        pages := pages + [page];
      }
      if currentPage.Some? && currentPage.value.id == page.id {
        currentPage := Some(page);
      }
    }

    /** `deletePage.fulfilled`: filter by id, clear the current page when it
        is the deleted one; loading and error are not touched. */
    method DeletePageFulfilled(pageId: string)
      modifies this
      ensures State() == old(State()).(pages := Without(old(pages), pageId),
                                       currentPage := ClearIfCurrent(old(currentPage), pageId))
    {
      pages := Without(pages, pageId);
      if currentPage.Some? && currentPage.value.id == pageId {
        currentPage := None;
      }
    }

    /** `publishPage.fulfilled`: replace an existing entry, never append;
        loading and error are not touched. */
    method PublishPageFulfilled(page: LandingPage)
      modifies this
      ensures State() == old(State()).(pages := ReplaceExisting(old(pages), page),
                                       currentPage := SyncCurrent(old(currentPage), page))
    {
      var existingIndex := FindIndex(pages, page.id);
      if existingIndex >= 0 {
        pages := pages[existingIndex := page];
      }
      if currentPage.Some? && currentPage.value.id == page.id {
        currentPage := Some(page);
      }
    }
  }

  // ---------------------------------------------------------------------
  // The thunks: the service call, then the reducer case for its outcome.
  // The mock services behind fetchPages, savePage and deletePage never fail.

  method DispatchFetchPages(slice: Slice, store: KeyValueStore, userId: string)
    modifies slice
    ensures slice.State() == old(slice.State()).(pages := PagesIn(store.items, userId), isLoading := false, error := None)
  {
    slice.Pending();
    var pages := GetPages(store, userId);
    slice.FetchPagesFulfilled(pages);
  }

  method DispatchSavePage(slice: Slice, store: KeyValueStore, page: LandingPage, now: Timestamp)
    modifies slice, store
    ensures store.items == SaveStore(old(store.items), page, now)
    ensures slice.State() == old(slice.State()).(pages := Upsert(old(slice.pages), page.id, page, page),
                                                 currentPage := SyncCurrent(old(slice.currentPage), page),
                                                 isLoading := false, error := None)
  {
    slice.Pending();
    var saved := SavePage(store, page, now);
    slice.SavePageFulfilled(saved);
  }

  /** No pending or rejected case exists for deletePage. */
  method DispatchDeletePage(slice: Slice, store: KeyValueStore, userId: string, pageId: string)
    modifies slice, store
    ensures store.items == DeleteStore(old(store.items), userId, pageId)
    ensures slice.State() == old(slice.State()).(pages := Without(old(slice.pages), pageId),
                                                 currentPage := ClearIfCurrent(old(slice.currentPage), pageId))
  {
    DeletePage(store, userId, pageId);
    slice.DeletePageFulfilled(pageId);
  }

  /** No pending or rejected case exists for publishPage: a page that is not
      found leaves the whole slice, error included, as it was. */
  method DispatchPublishPage(slice: Slice, store: KeyValueStore, userId: string, pageId: string,
                             publishedAt: Timestamp, savedAt: Timestamp)
    returns (r: Result<LandingPage, string>)
    modifies slice, store
    ensures r == PublishOutcome(old(store.items), userId, pageId, publishedAt)
    ensures r.Failure? ==> slice.State() == old(slice.State()) && store.items == old(store.items)
    ensures r.Success? ==> store.items == SaveStore(old(store.items), r.value, savedAt)
    ensures r.Success? ==> slice.State() == old(slice.State()).(pages := ReplaceExisting(old(slice.pages), r.value),
                                                                currentPage := SyncCurrent(old(slice.currentPage), r.value))
  {
    r := PublishPage(store, userId, pageId, publishedAt, savedAt);
    if r.Success? {
      slice.PublishPageFulfilled(r.value);
    }
  }

  /** submitForm has no reducer case: only the store changes. */
  method DispatchSubmitForm(store: KeyValueStore, submission: FormSubmission)
    modifies store
    ensures store.items == SubmitStore(old(store.items), submission)
  {
    SubmitForm(store, submission);
  }

  // ---------------------------------------------------------------------
  // Properties of the reducers' list operations.

  /** `publishPage.fulfilled` keeps the length and every id's count, and is
      the identity on an absent id, where `savePage.fulfilled` appends. */
  lemma PublishNeverAppends(pages: seq<LandingPage>, page: LandingPage, x: string)
    ensures |ReplaceExisting(pages, page)| == |pages|
    ensures CountId(ReplaceExisting(pages, page), x) == CountId(pages, x)
    ensures !HasId(pages, page.id) ==> ReplaceExisting(pages, page) == pages
    ensures !HasId(pages, page.id) ==> Upsert(pages, page.id, page, page) == pages + [page]
  {
    var i := FindIndex(pages, page.id);
    if i >= 0 {
      CountIdUpdate(pages, i, page, x);
    }
  }

  /** Two lists that agree on everything except `updatedAt`. */
  predicate SameUpToUpdatedAt(a: seq<LandingPage>, b: seq<LandingPage>)
  {
    |a| == |b| && forall j :: 0 <= j < |a| ==> a[j].(updatedAt := 0) == b[j].(updatedAt := 0)
  }

  /** When the slice mirrors the stored list, a save keeps them in step
      except for the refreshed `updatedAt` the store gives a replaced entry
      (the service returns the input page, not the stored copy). */
  lemma SaveKeepsSliceInStep(pages: seq<LandingPage>, page: LandingPage, now: Timestamp)
    ensures SameUpToUpdatedAt(Upsert(pages, page.id, page, page), SavedList(pages, page, now))
    ensures !HasId(pages, page.id) ==> Upsert(pages, page.id, page, page) == SavedList(pages, page, now)
  {
  }

  /** The same for a publish: the slice holds the page with the publish
      timestamp, the store the one with the nested save's timestamp. */
  lemma PublishKeepsSliceInStep(pages: seq<LandingPage>, published: LandingPage, savedAt: Timestamp)
    requires HasId(pages, published.id)
    ensures SameUpToUpdatedAt(ReplaceExisting(pages, published), SavedList(pages, published, savedAt))
  {
  }
}
