/** The key-value store the mock services persist to (AsyncStorage), with
    JSON serialisation taken as the identity: a key holds a parsed value. */
module Storage {
  import opened Wrappers
  import opened Types

  /** What a key holds once parsed: a user's page list, a page's submission
      list, or the auth token string. */
  datatype Stored =
    | PageList(pages: seq<LandingPage>)
    | SubmissionList(submissions: seq<FormSubmission>)
    | Token(token: string)

  const PagesPrefix := "pages_"
  const SubmissionsPrefix := "submissions_"
  const AuthTokenKey := "authToken"

  /** `pages_<userId>`: where a user's page list lives. */
  function PagesKey(userId: string): string
  {
    PagesPrefix + userId
  }

  /** `submissions_<pageId>`: where a page's submissions live. */
  function SubmissionsKey(pageId: string): string
  {
    SubmissionsPrefix + pageId
  }

  predicate HasPrefix(key: string, prefix: string)
  {
    |prefix| <= |key| && key[..|prefix|] == prefix
  }

  /** The three families of keys never meet, so a write to one family leaves
      the others alone. */
  lemma KeyFamilies(userId: string, pageId: string)
    ensures HasPrefix(PagesKey(userId), PagesPrefix) && !HasPrefix(PagesKey(userId), SubmissionsPrefix)
    ensures HasPrefix(SubmissionsKey(pageId), SubmissionsPrefix) && !HasPrefix(SubmissionsKey(pageId), PagesPrefix)
    ensures PagesKey(userId) != SubmissionsKey(pageId)
    ensures PagesKey(userId) != AuthTokenKey && SubmissionsKey(pageId) != AuthTokenKey
    ensures !HasPrefix(AuthTokenKey, PagesPrefix) && !HasPrefix(AuthTokenKey, SubmissionsPrefix)
  {
    assert PagesKey(userId)[0] == 'p';
    assert SubmissionsKey(pageId)[0] == 's';
    assert AuthTokenKey[0] == 'a';
  }

  /** Distinct users have distinct page keys, distinct pages distinct submission keys. */
  lemma KeysInjective(a: string, b: string)
    ensures PagesKey(a) == PagesKey(b) ==> a == b
    ensures SubmissionsKey(a) == SubmissionsKey(b) ==> a == b
  {
    assert PagesKey(a)[|PagesPrefix|..] == a && PagesKey(b)[|PagesPrefix|..] == b;
    assert SubmissionsKey(a)[|SubmissionsPrefix|..] == a && SubmissionsKey(b)[|SubmissionsPrefix|..] == b;
  }

  /** Every key holds the kind of value the services write under it. */
  predicate WellFormed(items: map<string, Stored>)
  {
    forall key :: key in items ==>
      && (HasPrefix(key, PagesPrefix) ==> items[key].PageList?)
      && (HasPrefix(key, SubmissionsPrefix) ==> items[key].SubmissionList?)
      && (key == AuthTokenKey ==> items[key].Token?)
  }

  /** Every key other than `key` is present in `after` exactly when it is in
      `before`, with the same value. */
  ghost predicate OthersUnchanged(before: map<string, Stored>, after: map<string, Stored>, key: string)
  {
    forall k :: k != key ==> (k in after <==> k in before) && (k in before ==> after[k] == before[k])
  }

  /** `getPages`: the list stored for the user, or `[]` when nothing is stored. */
  function PagesIn(items: map<string, Stored>, userId: string): (r: seq<LandingPage>)
    ensures PagesKey(userId) !in items ==> r == []
    ensures r != [] ==> PagesKey(userId) in items && items[PagesKey(userId)] == PageList(r)
  {
    var key := PagesKey(userId);
    if key in items && items[key].PageList? then items[key].pages else []
  }

  /** `getFormSubmissions`: the list stored for the page, or `[]` when nothing is stored. */
  function SubmissionsIn(items: map<string, Stored>, pageId: string): (r: seq<FormSubmission>)
    ensures SubmissionsKey(pageId) !in items ==> r == []
    ensures r != [] ==> SubmissionsKey(pageId) in items && items[SubmissionsKey(pageId)] == SubmissionList(r)
  {
    var key := SubmissionsKey(pageId);
    if key in items && items[key].SubmissionList? then items[key].submissions else []
  }

  /** The auth token, when one is stored. */
  function TokenIn(items: map<string, Stored>): (r: Option<string>)
    ensures AuthTokenKey !in items ==> r.None?
    ensures r.Some? ==> AuthTokenKey in items && items[AuthTokenKey] == Token(r.value)
  {
    if AuthTokenKey in items && items[AuthTokenKey].Token? then Some(items[AuthTokenKey].token) else None
  }

  /** On a well-formed store the readers' `[]` default covers exactly the absent key. */
  lemma ReadersOnWellFormed(items: map<string, Stored>, userId: string, pageId: string)
    requires WellFormed(items)
    ensures PagesKey(userId) in items ==> PagesIn(items, userId) == items[PagesKey(userId)].pages
    ensures SubmissionsKey(pageId) in items ==> SubmissionsIn(items, pageId) == items[SubmissionsKey(pageId)].submissions
    ensures AuthTokenKey in items ==> TokenIn(items) == Some(items[AuthTokenKey].token)
  {
    KeyFamilies(userId, pageId);
  }

  /** Writing a page list under a page key, a submission list under a
      submission key, the token under its key, or removing a key, keeps the
      store well-formed. */
  lemma WritesKeepWellFormed(items: map<string, Stored>, userId: string, pageId: string,
                             pages: seq<LandingPage>, submissions: seq<FormSubmission>, token: string)
    requires WellFormed(items)
    ensures WellFormed(items[PagesKey(userId) := PageList(pages)])
    ensures WellFormed(items[SubmissionsKey(pageId) := SubmissionList(submissions)])
    ensures WellFormed(items[AuthTokenKey := Token(token)])
    ensures WellFormed(items - {AuthTokenKey})
  {
    KeyFamilies(userId, pageId);
  }

  /** AsyncStorage: string keys to stored values, read and written whole. */
  class KeyValueStore {
    var items: map<string, Stored>

    constructor ()
      ensures items == map[]
    {
      items := map[];
    }

    /** `getItem`: the value under `key`, or null. */
    method GetItem(key: string) returns (value: Option<Stored>)
      ensures value.Some? <==> key in items
      ensures value.Some? ==> value.value == items[key]
    {
      value := if key in items then Some(items[key]) else None;
    }

    /** `setItem`: overwrite the value under `key`; every other key is untouched. */
    method SetItem(key: string, value: Stored)
      modifies this
      ensures items == old(items)[key := value]
    {
      items := items[key := value];
    }

    /** `removeItem`: drop `key`; every other key is untouched. */
    method RemoveItem(key: string)
      modifies this
      ensures items == old(items) - {key}
    {
      items := items - {key};
    }
  }
}
