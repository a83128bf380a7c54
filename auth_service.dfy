/** The mock identity provider (`mockAuthService` in authSlice.ts): a
    hard-coded credential check, and the auth token in the store as the only
    session marker. */
module AuthService {
  import opened Wrappers
  import opened Types
  import opened Storage

  const DemoEmail := "demo@example.com"
  const DemoPassword := "password"
  const DemoUserId := "1"
  const DemoUserName := "Demo User"
  const MockToken := "mock-token"
  const InvalidCredentials := "Invalid credentials"

  /** The demo identity, stamped with the clock reading of its creation. */
  function DemoUser(createdAt: Timestamp): User
  {
    User(DemoUserId, DemoEmail, Some(DemoUserName), createdAt)
  }

  function Digit(d: nat): (c: char)
    requires d < 10
    ensures '0' <= c <= '9'
  {
    (('0' as int) + d) as char
  }

  /** The number a string of decimal digits denotes, read left to right. */
  function DecimalValue(s: string): nat
    requires forall k :: 0 <= k < |s| ==> '0' <= s[k] <= '9'
  {
    if |s| == 0 then 0
    else DecimalValue(s[..|s| - 1]) * 10 + ((s[|s| - 1] as int) - ('0' as int))
  }

  /** `n.toString()` for a non-negative integer: the decimal digits denoting
      `n`, with no leading zero. */
  function DecimalString(n: nat): (s: string)
    ensures |s| >= 1
    ensures forall k :: 0 <= k < |s| ==> '0' <= s[k] <= '9'
    ensures DecimalValue(s) == n
    ensures n >= 10 <==> |s| >= 2
    ensures |s| >= 2 ==> s[0] != '0'
  {
    if n < 10 then [Digit(n)]
    else
      var front := DecimalString(n / 10);
      var s := front + [Digit(n % 10)];
      assert s[..|s| - 1] == front;
      s
  }

  /** Distinct clock readings give distinct user ids. */
  lemma DecimalStringInjective(a: nat, b: nat)
    ensures DecimalString(a) == DecimalString(b) ==> a == b
  {
  }

  /** What `login` resolves to: only the demo credentials succeed. */
  function LoginResult(email: string, password: string, now: Timestamp): (r: Result<User, string>)
    ensures r.Success? <==> email == DemoEmail && password == DemoPassword
    ensures r.Success? ==> r.value == DemoUser(now) && r.value.email == email
    ensures r.Failure? ==> r.error == InvalidCredentials
  {
    if email == DemoEmail && password == DemoPassword then Success(User(DemoUserId, email, Some(DemoUserName), now))
    else Failure(InvalidCredentials)
  }

  /** The store after a login: the token is written only on success. */
  method Login(store: KeyValueStore, email: string, password: string, now: Timestamp)
    returns (r: Result<User, string>)
    modifies store
    ensures r == LoginResult(email, password, now)
    ensures r.Success? ==> store.items == old(store.items)[AuthTokenKey := Token(MockToken)]
    ensures r.Failure? ==> store.items == old(store.items)
  {
    if email == DemoEmail && password == DemoPassword {
      var user := User(DemoUserId, email, Some(DemoUserName), now);
      store.SetItem(AuthTokenKey, Token(MockToken));
      return Success(user);
    }
    r := Failure(InvalidCredentials);
  }

  /** `register` accepts any password: the id is the clock reading in
      milliseconds, written in decimal. */
  method Register(store: KeyValueStore, email: string, password: string, name: Option<string>,
                  clockMs: nat, now: Timestamp)
    returns (user: User)
    modifies store
    ensures user == User(DecimalString(clockMs), email, name, now)
    ensures store.items == old(store.items)[AuthTokenKey := Token(MockToken)]
  {
    user := User(DecimalString(clockMs), email, name, now);
    store.SetItem(AuthTokenKey, Token(MockToken));
  }

  method Logout(store: KeyValueStore)
    modifies store
    ensures store.items == old(store.items) - {AuthTokenKey}
  {
    store.RemoveItem(AuthTokenKey);
  }

  /** What `getCurrentUser` resolves to: the demo user exactly when a
      non-empty token is stored (an empty string is falsy). */
  function CurrentUserFor(token: Option<string>, now: Timestamp): (r: Option<User>)
    ensures r.Some? <==> token.Some? && token.value != ""
    ensures r.Some? ==> r.value == DemoUser(now)
  {
    if token.Some? && token.value != "" then Some(DemoUser(now)) else None
  }

  method GetCurrentUser(store: KeyValueStore, now: Timestamp) returns (user: Option<User>)
    ensures user == CurrentUserFor(TokenIn(store.items), now)
  {
    var token := store.GetItem(AuthTokenKey);
    if token.Some? && token.value.Token? && token.value.token != "" {
      user := Some(DemoUser(now));
    } else {
      user := None;
    }
  }

  // ---------------------------------------------------------------------
  // Sessions across calls.

  /** After a successful login the stored session yields the same user again
      (for the same clock reading). */
  lemma LoginThenCurrentUser(items: map<string, Stored>, email: string, password: string, now: Timestamp)
    requires LoginResult(email, password, now).Success?
    ensures CurrentUserFor(TokenIn(items[AuthTokenKey := Token(MockToken)]), now)
         == Some(LoginResult(email, password, now).value)
  {
  }

  /** After a registration the stored session yields the demo user, not the
      registered one: the token carries no identity. */
  lemma RegisterThenCurrentUserIsDemo(items: map<string, Stored>, now: Timestamp)
    ensures CurrentUserFor(TokenIn(items[AuthTokenKey := Token(MockToken)]), now) == Some(DemoUser(now))
  {
  }

  /** After a logout there is no current user. */
  lemma LogoutThenNoUser(items: map<string, Stored>, now: Timestamp)
    ensures CurrentUserFor(TokenIn(items - {AuthTokenKey}), now).None?
  {
  }

  /** Session writes never touch a page or submission list. */
  lemma SessionLeavesPagesAlone(items: map<string, Stored>, userId: string, pageId: string)
    ensures PagesIn(items[AuthTokenKey := Token(MockToken)], userId) == PagesIn(items, userId)
    ensures PagesIn(items - {AuthTokenKey}, userId) == PagesIn(items, userId)
    ensures SubmissionsIn(items[AuthTokenKey := Token(MockToken)], pageId) == SubmissionsIn(items, pageId)
    ensures SubmissionsIn(items - {AuthTokenKey}, pageId) == SubmissionsIn(items, pageId)
  {
    KeyFamilies(userId, pageId);
  }
}
