/** The mock page repository (`mockPagesService` in pagesSlice.ts): every
    operation reads a whole list from the store, changes it and writes the
    whole list back. The list operations are specified by the functions
    below; the store after each operation by the `...Store` functions. */
module PagesService {
  import opened Wrappers
  import opened Types
  import opened Storage

  const PageNotFound := "Page not found"

  predicate HasId(pages: seq<LandingPage>, id: string)
  {
    exists j :: 0 <= j < |pages| && pages[j].id == id
  }

  /** Position `j` holds the first entry with `id`. */
  predicate IsFirst(pages: seq<LandingPage>, j: int, id: string)
  {
    && 0 <= j < |pages|
    && pages[j].id == id
    && forall k :: 0 <= k < j ==> pages[k].id != id
  }

  /** `pages.findIndex(p => p.id === id)`: the first position holding `id`, or -1. */
  function FindIndex(pages: seq<LandingPage>, id: string): (i: int)
    ensures -1 <= i < |pages|
    ensures i >= 0 ==> pages[i].id == id
    ensures forall j :: 0 <= j < |pages| && (i < 0 || j < i) ==> pages[j].id != id
  {
    if |pages| == 0 then -1
    else if pages[0].id == id then 0
    else
      var k := FindIndex(pages[1..], id);
      if k < 0 then -1 else k + 1
  }

  /** `pages.find(p => p.id === id)`: the first entry with `id`, if any. */
  function Find(pages: seq<LandingPage>, id: string): (r: Option<LandingPage>)
    ensures r.Some? <==> HasId(pages, id)
    ensures r.Some? ==> exists j :: IsFirst(pages, j, id) && r.value == pages[j]
  {
    var i := FindIndex(pages, id);
    if i >= 0 then Some(pages[i]) else None
  }

  /** Number of entries carrying `id`. */
  function CountId(pages: seq<LandingPage>, id: string): nat
  {
    if |pages| == 0 then 0
    else (if pages[0].id == id then 1 else 0) + CountId(pages[1..], id)
  }

  /** The upsert both `savePage` and the `savePage.fulfilled` reducer perform:
      the first entry with `id` becomes `replacement`; with no such entry,
      `appended` goes at the end. */
  function Upsert(pages: seq<LandingPage>, id: string, replacement: LandingPage, appended: LandingPage): (r: seq<LandingPage>)
    ensures HasId(pages, id) ==> exists j :: IsFirst(pages, j, id) && r == pages[j := replacement]
    ensures !HasId(pages, id) ==> r == pages + [appended]
  {
    var i := FindIndex(pages, id);
    if i >= 0 then
      assert IsFirst(pages, i, id);
      pages[i := replacement]
    else pages + [appended]
  }

  /** The list `savePage` writes back: a present page is stored with
      `updatedAt` refreshed, an absent one is appended as given. */
  function SavedList(pages: seq<LandingPage>, page: LandingPage, now: Timestamp): (r: seq<LandingPage>)
    ensures |r| == |pages| + (if HasId(pages, page.id) then 0 else 1)
    ensures Find(r, page.id) == Some(if HasId(pages, page.id) then page.(updatedAt := now) else page)
  {
    var i := FindIndex(pages, page.id);
    var r := Upsert(pages, page.id, page.(updatedAt := now), page);
    if i >= 0 then
      assert r[i].id == page.id;
      assert forall j :: 0 <= j < i ==> r[j] == pages[j];
      assert FindIndex(r, page.id) == i;
      r
    else
      assert r[|pages|].id == page.id;
      assert FindIndex(r, page.id) == |pages|;
      r
  }

  /** `pages.filter(p => p.id !== id)`. */
  function Without(pages: seq<LandingPage>, id: string): (r: seq<LandingPage>)
    ensures |r| <= |pages|
    ensures forall j :: 0 <= j < |r| ==> r[j].id != id && r[j] in pages
  {
    if |pages| == 0 then []
    else (if pages[0].id == id then [] else [pages[0]]) + Without(pages[1..], id)
  }

  // ---------------------------------------------------------------------
  // The store after each service operation.

  /** After a save, looking the page up under its owner finds the saved
      version; no other key changes. */
  function SaveStore(items: map<string, Stored>, page: LandingPage, now: Timestamp): (r: map<string, Stored>)
    ensures Find(PagesIn(r, page.userId), page.id)
         == Some(if HasId(PagesIn(items, page.userId), page.id) then page.(updatedAt := now) else page)
    ensures OthersUnchanged(items, r, PagesKey(page.userId))
  {
    items[PagesKey(page.userId) := PageList(SavedList(PagesIn(items, page.userId), page, now))]
  }

  /** After a delete, no entry with the id is left under the user's key; no
      other key changes. */
  function DeleteStore(items: map<string, Stored>, userId: string, pageId: string): (r: map<string, Stored>)
    ensures !HasId(PagesIn(r, userId), pageId)
    ensures OthersUnchanged(items, r, PagesKey(userId))
  {
    items[PagesKey(userId) := PageList(Without(PagesIn(items, userId), pageId))]
  }

  /** What `publishPage` returns: the found page flagged published, stamped
      with the clock reading `publishedAt`, or "Page not found". */
  function PublishOutcome(items: map<string, Stored>, userId: string, pageId: string, publishedAt: Timestamp): (r: Result<LandingPage, string>)
    ensures r.Failure? <==> !HasId(PagesIn(items, userId), pageId)
    ensures r.Failure? ==> r.error == PageNotFound
    ensures r.Success? ==> exists j :: IsFirst(PagesIn(items, userId), j, pageId)
                                    && r.value == PagesIn(items, userId)[j].(isPublished := true, updatedAt := publishedAt)
  {
    match Find(PagesIn(items, userId), pageId)
    case None => Failure(PageNotFound)
    case Some(page) => Success(page.(isPublished := true, updatedAt := publishedAt))
  }

  /** After a submission, its page's list has it at the end; no other key changes. */
  function SubmitStore(items: map<string, Stored>, submission: FormSubmission): (r: map<string, Stored>)
    ensures SubmissionsIn(r, submission.landingPageId) == SubmissionsIn(items, submission.landingPageId) + [submission]
    ensures OthersUnchanged(items, r, SubmissionsKey(submission.landingPageId))
  {
    var key := submission.landingPageId;
    items[SubmissionsKey(key) := SubmissionList(SubmissionsIn(items, key) + [submission])]
  }

  // ---------------------------------------------------------------------
  // The service methods.

  method GetPages(store: KeyValueStore, userId: string) returns (pages: seq<LandingPage>)
    ensures pages == PagesIn(store.items, userId)
  {
    var stored := store.GetItem(PagesKey(userId));
    pages := if stored.Some? && stored.value.PageList? then stored.value.pages else [];
  }

  /** Returns the page it was given, not the stored copy with the refreshed timestamp. */
  method SavePage(store: KeyValueStore, page: LandingPage, now: Timestamp) returns (saved: LandingPage)
    modifies store
    ensures store.items == SaveStore(old(store.items), page, now)
    ensures saved == page
  {
    var pages := GetPages(store, page.userId);
    var existingIndex := FindIndex(pages, page.id);
    if existingIndex >= 0 {
      pages := pages[existingIndex := page.(updatedAt := now)];
    } else {
      pages := pages + [page];
    }
    store.SetItem(PagesKey(page.userId), PageList(pages));
    saved := page;
  }

  method DeletePage(store: KeyValueStore, userId: string, pageId: string)
    modifies store
    ensures store.items == DeleteStore(old(store.items), userId, pageId)
  {
    var pages := GetPages(store, userId);
    var filtered := Without(pages, pageId);
    store.SetItem(PagesKey(userId), PageList(filtered));
  }

  /** Reads the clock twice: `publishedAt` for the returned page, `savedAt`
      inside the nested `savePage`. The write goes to the key of the found
      page's own `userId`. */
  method PublishPage(store: KeyValueStore, userId: string, pageId: string, publishedAt: Timestamp, savedAt: Timestamp)
    returns (r: Result<LandingPage, string>)
    modifies store
    ensures r == PublishOutcome(old(store.items), userId, pageId, publishedAt)
    ensures r.Failure? ==> store.items == old(store.items)
    ensures r.Success? ==> store.items == SaveStore(old(store.items), r.value, savedAt)
  {
    var pages := GetPages(store, userId);
    var page := Find(pages, pageId);
    if page.None? {
      return Failure(PageNotFound);
    }
    var updatedPage := page.value.(isPublished := true, updatedAt := publishedAt);
    var saved := SavePage(store, updatedPage, savedAt);
    r := Success(saved);
  }

  method SubmitForm(store: KeyValueStore, submission: FormSubmission)
    modifies store
    ensures store.items == SubmitStore(old(store.items), submission)
  {
    var key := SubmissionsKey(submission.landingPageId);
    var stored := store.GetItem(key);
    var existing := if stored.Some? && stored.value.SubmissionList? then stored.value.submissions else [];
    existing := existing + [submission];
    store.SetItem(key, SubmissionList(existing));
  }

  method GetFormSubmissions(store: KeyValueStore, landingPageId: string) returns (submissions: seq<FormSubmission>)
    ensures submissions == SubmissionsIn(store.items, landingPageId)
  {
    var stored := store.GetItem(SubmissionsKey(landingPageId));
    submissions := if stored.Some? && stored.value.SubmissionList? then stored.value.submissions else [];
  }

  // ---------------------------------------------------------------------
  // Properties of the list operations.

  /** With `id` present, the upsert keeps the length and changes only the
      first entry with `id`; with `id` absent, it appends. */
  lemma UpsertShape(pages: seq<LandingPage>, id: string, replacement: LandingPage, appended: LandingPage)
    ensures var r := Upsert(pages, id, replacement, appended);
      HasId(pages, id) ==>
        |r| == |pages| && forall j :: 0 <= j < |pages| ==> r[j] == (if IsFirst(pages, j, id) then replacement else pages[j])
    ensures !HasId(pages, id) ==> Upsert(pages, id, replacement, appended) == pages + [appended]
  {
    var i := FindIndex(pages, id);
    if HasId(pages, id) {
      forall j | 0 <= j < |pages|
        ensures IsFirst(pages, j, id) <==> j == i
      {
      }
    }
  }

  lemma {:induction false} CountIdPositive(pages: seq<LandingPage>, id: string)
    ensures CountId(pages, id) > 0 <==> HasId(pages, id)
  {
    if |pages| > 0 {
      CountIdPositive(pages[1..], id);
      if HasId(pages[1..], id) {
        var j :| 0 <= j < |pages[1..]| && pages[1..][j].id == id;
        assert pages[j + 1].id == id;
      }
      if HasId(pages, id) && pages[0].id != id {
        var j :| 0 <= j < |pages| && pages[j].id == id;
        assert pages[1..][j - 1].id == id;
      }
    }
  }

  lemma {:induction false} CountIdAppend(a: seq<LandingPage>, b: seq<LandingPage>, id: string)
    ensures CountId(a + b, id) == CountId(a, id) + CountId(b, id)
  {
    if |a| == 0 {
      assert a + b == b;
    } else {
      assert (a + b)[1..] == a[1..] + b;
      CountIdAppend(a[1..], b, id);
    }
  }

  /** Overwriting an entry by one with the same id leaves every id's count alone. */
  lemma {:induction false} CountIdUpdate(pages: seq<LandingPage>, i: nat, q: LandingPage, id: string)
    requires i < |pages| && pages[i].id == q.id
    ensures CountId(pages[i := q], id) == CountId(pages, id)
  {
    if i > 0 {
      assert pages[i := q][1..] == pages[1..][i - 1 := q];
      CountIdUpdate(pages[1..], i - 1, q, id);
    }
  }

  /** The upsert adds one entry with the page's id when there was none and
      otherwise keeps every id's count: saving twice leaves one entry. */
  lemma UpsertCount(pages: seq<LandingPage>, page: LandingPage, replacement: LandingPage, x: string)
    requires replacement.id == page.id
    ensures CountId(Upsert(pages, page.id, replacement, page), x)
         == CountId(pages, x) + (if x == page.id && !HasId(pages, page.id) then 1 else 0)
  {
    var i := FindIndex(pages, page.id);
    if i >= 0 {
      CountIdUpdate(pages, i, replacement, x);
    } else {
      CountIdAppend(pages, [page], x);
      assert [page][1..] == [];
    }
  }

  /** Saving a page whose id is absent leaves exactly one entry with that id. */
  lemma SaveAbsentLeavesOne(pages: seq<LandingPage>, page: LandingPage, now: Timestamp)
    requires !HasId(pages, page.id)
    ensures CountId(SavedList(pages, page, now), page.id) == 1
  {
    CountIdPositive(pages, page.id);
    UpsertCount(pages, page, page.(updatedAt := now), page.id);
  }

  /** Saving the same page twice stores it once, at the place a single save of
      the second timestamp would reach, with that timestamp. */
  lemma SaveTwice(pages: seq<LandingPage>, page: LandingPage, t1: Timestamp, t2: Timestamp)
    ensures SavedList(SavedList(pages, page, t1), page, t2)
         == Upsert(pages, page.id, page.(updatedAt := t2), page.(updatedAt := t2))
  {
    var once := SavedList(pages, page, t1);
    var i := FindIndex(pages, page.id);
    if i >= 0 {
      assert once[i].id == page.id;
      assert forall j :: 0 <= j < i ==> once[j] == pages[j];
      assert FindIndex(once, page.id) == i;
      assert once[i := page.(updatedAt := t2)] == pages[i := page.(updatedAt := t2)];
    } else {
      assert once[|pages|].id == page.id;
      assert FindIndex(once, page.id) == |pages|;
    }
  }

  lemma {:induction false} WithoutConcat(a: seq<LandingPage>, b: seq<LandingPage>, id: string)
    ensures Without(a + b, id) == Without(a, id) + Without(b, id)
  {
    if |a| == 0 {
      assert a + b == b;
    } else {
      assert (a + b)[1..] == a[1..] + b;
      WithoutConcat(a[1..], b, id);
    }
  }

  /** Deleting an id that is absent changes nothing. */
  lemma {:induction false} WithoutAbsent(pages: seq<LandingPage>, id: string)
    requires !HasId(pages, id)
    ensures Without(pages, id) == pages
  {
    if |pages| > 0 {
      assert pages[0].id != id;
      assert !HasId(pages[1..], id) by {
        forall j | 0 <= j < |pages[1..]| ensures pages[1..][j].id != id {
          assert pages[1..][j] == pages[j + 1];
        }
      }
      WithoutAbsent(pages[1..], id);
      assert [pages[0]] + pages[1..] == pages;
    }
  }

  /** The filter drops exactly the entries with the id. */
  lemma {:induction false} WithoutLength(pages: seq<LandingPage>, id: string)
    ensures |Without(pages, id)| == |pages| - CountId(pages, id)
  {
    if |pages| > 0 {
      WithoutLength(pages[1..], id);
    }
  }

  /** Every entry with a different id survives the filter. */
  lemma {:induction false} WithoutKeeps(pages: seq<LandingPage>, id: string, q: LandingPage)
    requires q in pages && q.id != id
    ensures q in Without(pages, id)
  {
    if pages[0] != q {
      assert q in pages[1..];
      WithoutKeeps(pages[1..], id, q);
    }
  }

  // ---------------------------------------------------------------------
  // Properties of the store after each operation.

  /** After a save, the saving user's key holds the saved list and every
      other user's list is as before. */
  lemma PagesAfterSave(items: map<string, Stored>, page: LandingPage, now: Timestamp, userId: string)
    ensures PagesIn(SaveStore(items, page, now), userId)
         == if userId == page.userId then SavedList(PagesIn(items, userId), page, now) else PagesIn(items, userId)
  {
    KeysInjective(userId, page.userId);
  }

  /** After a delete no entry with the id is left under the user's key, the
      others keep their order, and no other user's list changes. */
  lemma PagesAfterDelete(items: map<string, Stored>, userId: string, pageId: string, other: string)
    ensures !HasId(PagesIn(DeleteStore(items, userId, pageId), userId), pageId)
    ensures PagesIn(DeleteStore(items, userId, pageId), userId) == Without(PagesIn(items, userId), pageId)
    ensures other != userId ==> PagesIn(DeleteStore(items, userId, pageId), other) == PagesIn(items, other)
  {
    KeysInjective(userId, other);
  }

  /** A successful publish on a page owned by `userId` stores, in place of
      the found entry, the page flagged published with the save's timestamp;
      the list keeps its length. */
  lemma PublishStoresPublished(items: map<string, Stored>, userId: string, pageId: string,
                               publishedAt: Timestamp, savedAt: Timestamp)
    requires PublishOutcome(items, userId, pageId, publishedAt).Success?
    requires PublishOutcome(items, userId, pageId, publishedAt).value.userId == userId
    ensures var before := PagesIn(items, userId);
            var after := PagesIn(SaveStore(items, PublishOutcome(items, userId, pageId, publishedAt).value, savedAt), userId);
            var i := FindIndex(before, pageId);
            && |after| == |before|
            && 0 <= i
            && after[i] == before[i].(isPublished := true, updatedAt := savedAt)
            && forall j :: 0 <= j < |before| && j != i ==> after[j] == before[j]
  {
    var published := PublishOutcome(items, userId, pageId, publishedAt).value;
    PagesAfterSave(items, published, savedAt, userId);
    UpsertShape(PagesIn(items, userId), pageId, published.(updatedAt := savedAt), published);
  }

  /** A submission goes at the end of its page's list; every other page's
      list, every user's pages and the token stay as they were. */
  lemma SubmissionsAfterSubmit(items: map<string, Stored>, submission: FormSubmission, pageId: string, userId: string)
    ensures SubmissionsIn(SubmitStore(items, submission), pageId)
         == if pageId == submission.landingPageId then SubmissionsIn(items, pageId) + [submission]
            else SubmissionsIn(items, pageId)
    ensures PagesIn(SubmitStore(items, submission), userId) == PagesIn(items, userId)
    ensures TokenIn(SubmitStore(items, submission)) == TokenIn(items)
  {
    KeysInjective(pageId, submission.landingPageId);
    KeyFamilies(userId, submission.landingPageId);
  }

  /** Every service write keeps the store well-formed. */
  lemma ServiceWritesKeepWellFormed(items: map<string, Stored>, page: LandingPage, now: Timestamp,
                                    userId: string, pageId: string, submission: FormSubmission)
    requires WellFormed(items)
    ensures WellFormed(SaveStore(items, page, now))
    ensures WellFormed(DeleteStore(items, userId, pageId))
    ensures WellFormed(SubmitStore(items, submission))
  {
    WritesKeepWellFormed(items, page.userId, submission.landingPageId,
      SavedList(PagesIn(items, page.userId), page, now),
      SubmissionsIn(items, submission.landingPageId) + [submission], "");
    WritesKeepWellFormed(items, userId, pageId, Without(PagesIn(items, userId), pageId), [], "");
  }
}
