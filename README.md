# Landing page generator: state layer and mock persistence

This project models the state layer of a React Native app for building and
publishing marketing landing pages. It covers:

- the records of the data model (`types/index.ts`): pages, their content
  sections, lead-capture forms and submissions, templates, users, and the
  three state domains `auth`, `pages` and `templates`;
- the mock page repository (`mockPagesService`). It keeps each user's page
  list under `pages_<userId>` and each page's submissions under
  `submissions_<pageId>` in a key-value store. Every write reads the
  whole list, changes it and writes it back; `getPages` and
  `getFormSubmissions` only read;
- the `pages` slice: reducers that keep `pages`, `currentPage`, `isLoading`
  and `error` in step with the repository;
- the fixed template catalog and the `templates` slice;
- the mock identity provider and the `auth` slice. The provider does a
  hard-coded credential check and uses a stored token as the session marker;
- the checks the registration form runs before it dispatches a registration.

The model and its proofs:

- The key-value store is a class (`Storage.KeyValueStore`) whose one field
  maps keys to parsed values. JSON serialisation is taken as the identity.
- Each service operation is a method. A read is proved equal to a reader
  function of the store (`PagesIn`, `SubmissionsIn`, `TokenIn`); a write is
  proved to leave the store equal to a pure function of the store before the
  call (`SaveStore`, `DeleteStore`, `SubmitStore`, with `PublishOutcome` for
  what a publish returns).
- The list operations underneath are specified by functions: first index,
  upsert, filter. Lemmas state their properties: which entries change, the
  count of each id, order, and what later reads return.
- Each slice is a class with the slice's fields. Each reducer case is a
  method whose postcondition gives the whole new state as an update of the
  old one.
- Each async thunk is a `Dispatch…` method: the service call, then the
  reducer case that handles its outcome.
- The clock is always a parameter: every `new Date()` is a `Timestamp`, and
  `Date.now()` is a natural number of milliseconds.

Points where the code's behaviour is easy to misread:

- Only `fetchPages`, `savePage`, `loginUser`, `registerUser` and
  `fetchTemplates` have the pending/fulfilled/rejected triple.
- `deletePage`, `publishPage`, `logoutUser` and `checkAuthStatus` have only a
  fulfilled case, and `submitForm` has no reducer case at all.
- So a publish of a missing page leaves the `pages` slice, `error` included,
  exactly as it was.
- A save refreshes `updatedAt` only when it replaces an existing entry. An
  appended page is stored as given.
- The nested save inside a publish writes to the key of the found page's own
  `userId`.

## Model

| member | source | states |
|---|---|---|
| `Types.ParseFieldType` | landing-page-generator/src/types/index.ts:77 | a stored field type is accepted exactly when it is one of "text", "email", "textarea", "phone", and then names that value |
| `Types.FieldTypeRoundTrip` | landing-page-generator/src/types/index.ts:75-81 | every field type read back from its name is itself |
| `Types.ParseCategory` | landing-page-generator/src/types/index.ts:106 | a stored category is accepted exactly when it is one of "business", "personal", "event", "product", and then names that value |
| `Types.CategoryRoundTrip` | landing-page-generator/src/types/index.ts:101-109 | every category read back from its name is itself |
| `Types.ApplyPatch` | landing-page-generator/src/store/slices/pagesSlice.ts:110 | after `{ ...page, ...patch }` each property holds the patch's value when the patch carries it and the page's earlier value otherwise |
| `Types.ApplyPatchLaws` | landing-page-generator/src/store/slices/pagesSlice.ts:110 | spreading an empty partial page changes nothing, and spreading the same partial page twice equals spreading it once |
| `Types.ErrorText` | landing-page-generator/src/store/slices/pagesSlice.ts:127 | a rejected case records the error's message when it is non-empty and the case's fallback otherwise, so the recorded error is never empty |
| `Storage.KeyFamilies` | landing-page-generator/src/store/slices/pagesSlice.ts:42 | a `pages_` key, a `submissions_` key and `authToken` are pairwise distinct and each carries only its own prefix |
| `Storage.KeysInjective` | landing-page-generator/src/store/slices/pagesSlice.ts:8 | distinct users have distinct page keys and distinct pages distinct submission keys |
| `Storage.PagesIn` | landing-page-generator/src/store/slices/pagesSlice.ts:8-9 | an absent `pages_<userId>` key reads as the empty list, and a non-empty read is the list stored under that key |
| `Storage.SubmissionsIn` | landing-page-generator/src/store/slices/pagesSlice.ts:49-50 | an absent `submissions_<pageId>` key reads as the empty list, and a non-empty read is the list stored under that key |
| `Storage.TokenIn` | landing-page-generator/src/store/slices/authSlice.ts:43-44 | an absent `authToken` key reads as null, and a token read is the one stored under that key |
| `Storage.ReadersOnWellFormed` | landing-page-generator/src/store/slices/pagesSlice.ts:7-10 | on a well-formed store the readers return exactly what is stored under a present key (the `[]` default covers only an absent key) |
| `Storage.WritesKeepWellFormed` | landing-page-generator/src/store/slices/pagesSlice.ts:22 | writing a page list, a submission list or the token under its own key, or removing the token, keeps every key holding the kind of value written under it |
| `Storage.KeyValueStore.GetItem` | landing-page-generator/src/store/slices/pagesSlice.ts:8 | returns the value under the key, or nothing when the key is absent |
| `Storage.KeyValueStore.SetItem` | landing-page-generator/src/store/slices/pagesSlice.ts:22 | the key now holds the value; every other key is unchanged |
| `Storage.KeyValueStore.RemoveItem` | landing-page-generator/src/store/slices/authSlice.ts:39 | the key is gone; every other key is unchanged |
| `PagesService.FindIndex` | landing-page-generator/src/store/slices/pagesSlice.ts:14 | returns the first position holding the id, or -1 exactly when no entry has it |
| `PagesService.Find` | landing-page-generator/src/store/slices/pagesSlice.ts:34 | finds a page exactly when the id is present, and then it is the first entry with that id |
| `PagesService.Without` | landing-page-generator/src/store/slices/pagesSlice.ts:28 | the filtered list holds no entry with the id, is no longer than the input and holds only input entries |
| `PagesService.Upsert` | landing-page-generator/src/store/slices/pagesSlice.ts:14-20 | with the id present, the first entry carrying it is replaced and nothing else changes; with it absent, the appended page goes at the end (the same upsert as lines 136-141) |
| `PagesService.SavedList` | landing-page-generator/src/store/slices/pagesSlice.ts:13-20 | the list a save writes grows by one only for a new id, and looking the id up in it finds the page with refreshed `updatedAt` when it replaced an entry, and as given when appended |
| `PagesService.SaveStore` | landing-page-generator/src/store/slices/pagesSlice.ts:12-22 | after a save, looking the page up under its owner's key finds the saved version, and every other key is unchanged |
| `PagesService.DeleteStore` | landing-page-generator/src/store/slices/pagesSlice.ts:26-30 | after a delete, no entry with the id is left under the user's key, and every other key is unchanged |
| `PagesService.SubmitStore` | landing-page-generator/src/store/slices/pagesSlice.ts:41-46 | after a submission, its page's list is the old one with it at the end, and every other key is unchanged |
| `PagesService.PublishOutcome` | landing-page-generator/src/store/slices/pagesSlice.ts:32-37 | fails with "Page not found" exactly when the id is absent; otherwise returns the first entry with the id, flagged published and stamped with the publish clock reading |
| `PagesService.GetPages` | landing-page-generator/src/store/slices/pagesSlice.ts:7-10 | returns the list stored under `pages_<userId>`, or the empty list when nothing is stored |
| `PagesService.SavePage` | landing-page-generator/src/store/slices/pagesSlice.ts:12-24 | writes the upserted list (refreshed `updatedAt` on replace, the page as given on append) under the page's owner key, changes no other key, and returns the input page |
| `PagesService.DeletePage` | landing-page-generator/src/store/slices/pagesSlice.ts:26-30 | writes the user's list without the id back under the user's key, and changes no other key |
| `PagesService.PublishPage` | landing-page-generator/src/store/slices/pagesSlice.ts:32-39 | on an absent id, fails with "Page not found" and writes nothing; otherwise returns the published page and stores it as a save with the second clock reading |
| `PagesService.SubmitForm` | landing-page-generator/src/store/slices/pagesSlice.ts:41-46 | appends the submission to its page's list and changes no other key |
| `PagesService.GetFormSubmissions` | landing-page-generator/src/store/slices/pagesSlice.ts:48-51 | returns the page's stored submissions, or the empty list when nothing is stored |
| `PagesService.UpsertShape` | landing-page-generator/src/store/slices/pagesSlice.ts:13-20 | with the id present, the length is kept and only the first entry with the id is replaced; with it absent, the page is appended at the end |
| `PagesService.UpsertCount` | landing-page-generator/src/store/slices/pagesSlice.ts:14-20 | an upsert adds one entry with the page's id when none existed and keeps every id's count otherwise (duplicates after the first survive) |
| `PagesService.SaveAbsentLeavesOne` | landing-page-generator/src/store/slices/pagesSlice.ts:14-20 | saving a page whose id is absent leaves exactly one entry with that id |
| `PagesService.SaveTwice` | landing-page-generator/src/store/slices/pagesSlice.ts:12-24 | saving the same page twice leaves it once, where one save would put it, carrying the second save's timestamp |
| `PagesService.WithoutConcat` | landing-page-generator/src/store/slices/pagesSlice.ts:28 | filtering distributes over concatenation, so the kept entries stay in their original order |
| `PagesService.WithoutAbsent` | landing-page-generator/src/store/slices/pagesSlice.ts:26-30 | deleting an absent id leaves the list unchanged |
| `PagesService.WithoutLength` | landing-page-generator/src/store/slices/pagesSlice.ts:28 | deleting removes exactly as many entries as carry the id |
| `PagesService.WithoutKeeps` | landing-page-generator/src/store/slices/pagesSlice.ts:28 | every entry with a different id survives the delete |
| `PagesService.PagesAfterSave` | landing-page-generator/src/store/slices/pagesSlice.ts:12-24 | after a save, reading the owner's pages returns the saved list, and every other user's pages read as before |
| `PagesService.PagesAfterDelete` | landing-page-generator/src/store/slices/pagesSlice.ts:26-30 | after a delete, reading the user's pages shows no entry with the id, and every other user's pages read as before |
| `PagesService.PublishStoresPublished` | landing-page-generator/src/store/slices/pagesSlice.ts:32-39 | a successful publish of a page owned by the user keeps the list's length and stores, at the found position only, that page flagged published with the save's timestamp |
| `PagesService.SubmissionsAfterSubmit` | landing-page-generator/src/store/slices/pagesSlice.ts:41-51 | after a submission, its page's submissions read as before plus it at the end; other pages' submissions, every user's pages and the token are unchanged |
| `PagesService.ServiceWritesKeepWellFormed` | landing-page-generator/src/store/slices/pagesSlice.ts:12-46 | save, delete and submit keep every key holding the kind of value written under it |
| `PagesSlice.ReplaceExisting` | landing-page-generator/src/store/slices/pagesSlice.ts:159-162 | with the id present, the first entry carrying it becomes the payload and nothing else changes; with it absent, the list is unchanged |
| `PagesSlice.SyncCurrent` | landing-page-generator/src/store/slices/pagesSlice.ts:142-144 | the current page changes only when its id matches the payload's, and then becomes the payload |
| `PagesSlice.ClearIfCurrent` | landing-page-generator/src/store/slices/pagesSlice.ts:153-155 | the current page is cleared only when its id is the deleted one; a surviving current page never has that id |
| `PagesSlice.Slice.constructor` | landing-page-generator/src/store/slices/pagesSlice.ts:91-96 | starts with no pages, no current page, not loading, no error |
| `PagesSlice.Slice.SetCurrentPage` | landing-page-generator/src/store/slices/pagesSlice.ts:102-104 | sets the current page and nothing else |
| `PagesSlice.Slice.ClearError` | landing-page-generator/src/store/slices/pagesSlice.ts:105-107 | clears the error and nothing else |
| `PagesSlice.Slice.UpdateCurrentPageContent` | landing-page-generator/src/store/slices/pagesSlice.ts:108-112 | spreads the partial page over the current page, and does nothing when there is none |
| `PagesSlice.Slice.Pending` | landing-page-generator/src/store/slices/pagesSlice.ts:117-120 | sets loading and clears the error, nothing else (`savePage.pending` at lines 130-133 is the same case) |
| `PagesSlice.Slice.Rejected` | landing-page-generator/src/store/slices/pagesSlice.ts:125-128 | stops loading and records the message, or "Failed to fetch pages" / "Failed to save page" when it is missing or empty, so the error is never empty; pages and current page are unchanged (`savePage.rejected` at lines 146-149 is the same case) |
| `PagesSlice.Slice.FetchPagesFulfilled` | landing-page-generator/src/store/slices/pagesSlice.ts:121-124 | replaces the pages wholesale and stops loading; the error is not touched |
| `PagesSlice.Slice.SavePageFulfilled` | landing-page-generator/src/store/slices/pagesSlice.ts:134-145 | upserts the page by id (appending when absent), follows the current page on an id match, stops loading |
| `PagesSlice.Slice.DeletePageFulfilled` | landing-page-generator/src/store/slices/pagesSlice.ts:151-156 | filters the id out and clears a matching current page; loading and error are untouched |
| `PagesSlice.Slice.PublishPageFulfilled` | landing-page-generator/src/store/slices/pagesSlice.ts:158-166 | replaces an existing entry without ever appending, follows a matching current page; loading and error are untouched |
| `PagesSlice.DispatchFetchPages` | landing-page-generator/src/store/slices/pagesSlice.ts:54-59 | the slice ends holding the stored list, not loading and without error |
| `PagesSlice.DispatchSavePage` | landing-page-generator/src/store/slices/pagesSlice.ts:61-66 | the store is saved and the slice upserts the input page, not loading and without error |
| `PagesSlice.DispatchDeletePage` | landing-page-generator/src/store/slices/pagesSlice.ts:68-74 | store and slice both filter the id out; loading and error are untouched |
| `PagesSlice.DispatchPublishPage` | landing-page-generator/src/store/slices/pagesSlice.ts:76-81 | a missing page leaves store and slice exactly as they were; otherwise the store is saved and the slice replaces the entry |
| `PagesSlice.DispatchSubmitForm` | landing-page-generator/src/store/slices/pagesSlice.ts:83-89 | only the store changes: the submission is appended |
| `PagesSlice.PublishNeverAppends` | landing-page-generator/src/store/slices/pagesSlice.ts:158-162 | the publish reducer keeps the length and every id's count, and leaves a list without the id unchanged where the save reducer appends |
| `PagesSlice.SaveKeepsSliceInStep` | landing-page-generator/src/store/slices/pagesSlice.ts:134-141 | from a slice that mirrors the stored list, a save leaves the slice and the store equal up to `updatedAt`, and exactly equal for a new page |
| `PagesSlice.PublishKeepsSliceInStep` | landing-page-generator/src/store/slices/pagesSlice.ts:158-162 | from a slice that mirrors the stored list, a publish leaves the slice and the store equal up to `updatedAt` |
| `TemplatesSlice.DefaultTemplates` | landing-page-generator/src/store/slices/templatesSlice.ts:5-255 | the three catalog templates with their content, forms and settings, as the catalog lemmas below state |
| `TemplatesSlice.CatalogShape` | landing-page-generator/src/store/slices/templatesSlice.ts:5-255 | the catalog holds exactly business-pro, startup-launch and personal-brand, in that order, with distinct ids |
| `TemplatesSlice.BusinessProDefaults` | landing-page-generator/src/store/slices/templatesSlice.ts:6-14 | business-pro is in category business and its hero title is "Grow Your Business Today" |
| `TemplatesSlice.FormFieldIdsDistinct` | landing-page-generator/src/store/slices/templatesSlice.ts:56-244 | every template carries a form, and no form repeats a field id |
| `TemplatesSlice.FetchTemplates` | landing-page-generator/src/store/slices/templatesSlice.ts:257-261 | yields the catalog unchanged |
| `TemplatesSlice.Slice.constructor` | landing-page-generator/src/store/slices/templatesSlice.ts:263-267 | starts with no templates, not loading, no error |
| `TemplatesSlice.Slice.ClearError` | landing-page-generator/src/store/slices/templatesSlice.ts:273-275 | clears the error and nothing else |
| `TemplatesSlice.Slice.Pending` | landing-page-generator/src/store/slices/templatesSlice.ts:279-282 | sets loading and clears the error |
| `TemplatesSlice.Slice.Fulfilled` | landing-page-generator/src/store/slices/templatesSlice.ts:283-286 | replaces the templates with the payload and stops loading |
| `TemplatesSlice.Slice.Rejected` | landing-page-generator/src/store/slices/templatesSlice.ts:287-290 | stops loading, records the message or "Failed to fetch templates", keeps the templates |
| `TemplatesSlice.DispatchFetchTemplates` | landing-page-generator/src/store/slices/templatesSlice.ts:257-261 | the slice ends holding the catalog, not loading and without error |
| `AuthService.DecimalString` | landing-page-generator/src/store/slices/authSlice.ts:29 | a clock reading becomes the decimal digits that denote it, without a leading zero, two digits or more exactly from 10 on |
| `AuthService.DecimalStringInjective` | landing-page-generator/src/store/slices/authSlice.ts:29 | registrations at distinct clock readings get distinct user ids |
| `AuthService.LoginResult` | landing-page-generator/src/store/slices/authSlice.ts:12-22 | succeeds exactly for demo@example.com with "password", returning user "1" named "Demo User" with the given email; otherwise fails with "Invalid credentials" |
| `AuthService.Login` | landing-page-generator/src/store/slices/authSlice.ts:7-23 | stores the token on success only; a failed login writes nothing |
| `AuthService.Register` | landing-page-generator/src/store/slices/authSlice.ts:25-36 | whatever the password, returns a user with the given email and name and the clock reading as id, and stores the token |
| `AuthService.Logout` | landing-page-generator/src/store/slices/authSlice.ts:38-40 | removes the token and nothing else |
| `AuthService.CurrentUserFor` | landing-page-generator/src/store/slices/authSlice.ts:42-53 | yields the demo user exactly when a non-empty token is present, and null otherwise |
| `AuthService.GetCurrentUser` | landing-page-generator/src/store/slices/authSlice.ts:42-53 | reads the token from the store and answers as above |
| `AuthService.LoginThenCurrentUser` | landing-page-generator/src/store/slices/authSlice.ts:19 | after a successful login the session yields the logged-in user again |
| `AuthService.RegisterThenCurrentUserIsDemo` | landing-page-generator/src/store/slices/authSlice.ts:34 | after a registration the session yields the demo user, not the registered one |
| `AuthService.LogoutThenNoUser` | landing-page-generator/src/store/slices/authSlice.ts:39 | after a logout there is no current user |
| `AuthService.SessionLeavesPagesAlone` | landing-page-generator/src/store/slices/authSlice.ts:19 | writing or removing the token changes no page list and no submission list |
| `AuthSlice.Slice.constructor` | landing-page-generator/src/store/slices/authSlice.ts:78-82 | starts with no user, not loading, no error |
| `AuthSlice.Slice.ClearError` | landing-page-generator/src/store/slices/authSlice.ts:88-90 | clears the error and nothing else |
| `AuthSlice.Slice.Pending` | landing-page-generator/src/store/slices/authSlice.ts:95-98 | sets loading and clears the error (`registerUser.pending` at lines 109-112 is the same case) |
| `AuthSlice.Slice.Fulfilled` | landing-page-generator/src/store/slices/authSlice.ts:99-103 | sets the user, stops loading, clears the error (`registerUser.fulfilled` at lines 113-117 is the same case) |
| `AuthSlice.Slice.Rejected` | landing-page-generator/src/store/slices/authSlice.ts:104-107 | stops loading and records the message, or "Login failed" / "Registration failed" when it is missing or empty, so the error is never empty; the user is unchanged (`registerUser.rejected` at lines 118-121 is the same case) |
| `AuthSlice.Slice.LogoutFulfilled` | landing-page-generator/src/store/slices/authSlice.ts:123-126 | clears user and error and leaves loading alone |
| `AuthSlice.Slice.CheckAuthStatusFulfilled` | landing-page-generator/src/store/slices/authSlice.ts:128-131 | sets the user to the result, possibly null, and stops loading |
| `AuthSlice.DispatchLogin` | landing-page-generator/src/store/slices/authSlice.ts:56-61 | good credentials sign the demo user in and store the token; bad ones keep the user, record "Invalid credentials" and write nothing |
| `AuthSlice.DispatchRegister` | landing-page-generator/src/store/slices/authSlice.ts:63-68 | the new user is signed in, not loading, without error, and the token is stored |
| `AuthSlice.DispatchLogout` | landing-page-generator/src/store/slices/authSlice.ts:70-72 | user and error cleared, token removed |
| `AuthSlice.DispatchCheckAuthStatus` | landing-page-generator/src/store/slices/authSlice.ts:74-76 | the user becomes the demo user exactly when a token is stored, and loading stops |
| `Registration.HandleRegister` | landing-page-generator/src/screens/auth/RegisterScreen.tsx:37-63 | the first failing check (empty field, then email, then length under 6, then mismatch) picks the alert; `registerUser` is dispatched exactly when all four pass |
| `Registration.EmailTestGivesShape` | landing-page-generator/src/screens/auth/RegisterScreen.tsx:43 | a substring matching `\S+@\S+\.\S+` yields an '@' and a later '.' with the non-space context around them |
| `Registration.ShapeAtMatches` | landing-page-generator/src/screens/auth/RegisterScreen.tsx:43 | that context makes the span from the character before the '@' to the one after the '.' match the pattern |
| `Registration.ShapeGivesEmailTest` | landing-page-generator/src/screens/auth/RegisterScreen.tsx:43 | the local shape makes the unanchored test pass |
| `Registration.EmailTestIffShape` | landing-page-generator/src/screens/auth/RegisterScreen.tsx:43-46 | the unanchored regular-expression test holds exactly when the local shape does |
| `Registration.PasswordLengthBoundary` | landing-page-generator/src/screens/auth/RegisterScreen.tsx:48-51 | a password of exactly six characters is accepted and one of five is refused |
| `Registration.EmailTestExamples` | landing-page-generator/src/screens/auth/RegisterScreen.tsx:43-46 | an address surrounded by other text passes; "a@b" and "a @b.c" fail |

## Left out

- Screens, styles and navigation are presentation only. The published and
  draft counters on the dashboard and the placeholder editor, preview and
  submissions screens are left out too.
- Creating a page from a template and generating a slug are left out: no code
  implements them, and the templates screen only navigates with a template
  id.
- The `setTimeout` delays, promise sequencing and the Redux Toolkit and Immer
  plumbing are not modelled. Each thunk runs as one sequential step: the
  service call, then its reducer case.
- Interleaving between sessions is out of scope. This includes the lost
  updates that whole-list read-modify-write allows.
- JSON serialisation is taken as the identity:
  - dates are not turned into strings;
  - malformed stored text, which would make `JSON.parse` throw, is not
    modelled;
  - so no modelled call to `fetchPages` or `savePage` rejects. Their rejected
    cases are modelled and proved on their own.
- A store failure (AsyncStorage rejecting a read or a write) is not modelled.
- A key holding a value of another kind reads as absent. `Storage.WellFormed`
  and the lemmas that keep it show that no service write produces such a key.
- The alert dialogs, and the `catch` around the dispatched registration, are
  left out. The mock registration never rejects.
- `Registration.HandleRegister` counts password length in Unicode scalar
  values, whereas JavaScript's `length` counts UTF-16 code units. The two
  differ only for characters outside the Basic Multilingual Plane.
- `PagesSlice.Slice.UpdateCurrentPageContent`: a patch property that is
  present but `undefined` would overwrite the field in JavaScript. In the
  model, a property is either carried with a value or absent.
- The colour and text fields of page content are unconstrained strings, as in
  the code.
