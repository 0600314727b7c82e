/**
 The session guard of `useAuth`: three pieces of component state (`token`,
 `isAuthenticated`, `isLoading`) kept in step with the `"token"` entry of
 `localStorage`.

 The functions below give the effect of each operation on a snapshot of the
 three fields and the store; the lemmas relate operations to one another;
 the class `Session` is the hook itself, whose methods update the fields and
 the shared store step by step and are proved to have exactly those effects.
 */
module Auth {
  import opened Browser

  const EmailKey := "user_email"

  /** The hook's three state fields together with the store they mirror. */
  datatype AuthState = AuthState(
    token: Option<string>,
    isAuthenticated: bool,
    isLoading: bool,
    store: map<string, string>)

  /** `isAuthenticated` is true exactly when a token (possibly empty) is held. */
  predicate Consistent(s: AuthState)
  {
    s.isAuthenticated == s.token.Some?
  }

  /** `localStorage.getItem("token")` on a store. */
  function StoredToken(store: map<string, string>): Option<string>
  {
    if TokenKey in store then Some(store[TokenKey]) else None
  }

  /** The state before the first check: no token, not authenticated, loading. */
  function Initial(store: map<string, string>): (s: AuthState)
    ensures Consistent(s)
  {
    AuthState(None, false, true, store)
  }

  /**
   `checkAuth`: a non-empty stored token is adopted; a missing or empty one
   leaves the session anonymous. Loading is over either way, and the store
   is only read.
   */
  function AfterCheckAuth(s: AuthState): (r: AuthState)
    ensures Consistent(r) && !r.isLoading && r.store == s.store
    ensures r.isAuthenticated <==> TokenKey in s.store && s.store[TokenKey] != ""
    ensures r.isAuthenticated ==> r.token == Some(s.store[TokenKey])
  {
    var stored := StoredToken(s.store);
    if TruthyString(stored) then s.(token := stored, isAuthenticated := true, isLoading := false)
    else s.(token := None, isAuthenticated := false, isLoading := false)
  }

  /**
   `login(t)`: stores and holds `t` (even an empty one) and marks the session
   authenticated; every other store entry, `user_email` included, and the
   loading flag stay as they were.
   */
  function AfterLogin(s: AuthState, t: string): (r: AuthState)
    ensures Consistent(r) && r.isAuthenticated && r.token == Some(t)
    ensures TokenKey in r.store && r.store[TokenKey] == t
    ensures forall k :: k != TokenKey ==> (k in r.store <==> k in s.store)
    ensures forall k :: k != TokenKey && k in s.store ==> r.store[k] == s.store[k]
    ensures r.isLoading == s.isLoading
  {
    AuthState(Some(t), true, s.isLoading, s.store[TokenKey := t])
  }

  /**
   `logout()`: removes both the token and the cached e-mail from the store
   and drops the token; other entries and the loading flag are untouched.
   */
  function AfterLogout(s: AuthState): (r: AuthState)
    ensures Consistent(r) && !r.isAuthenticated && r.token == None
    ensures TokenKey !in r.store && EmailKey !in r.store
    ensures forall k :: k != TokenKey && k != EmailKey ==> (k in r.store <==> k in s.store)
    ensures forall k :: k in r.store ==> r.store[k] == s.store[k]
    ensures r.isLoading == s.isLoading
  {
    AuthState(None, false, s.isLoading, s.store - {TokenKey, EmailKey})
  }

  // ---------------------------------------------------------------------------
  // Sequences of events

  /**
   What can happen to a mounted hook: its own check on mount, a login, a
   logout, or another tab rewriting the store (which fires the `storage`
   listener, i.e. `checkAuth` again).
   */
  datatype Event = CheckAuth | Login(newToken: string) | Logout | StorageChanged(newStore: map<string, string>)

  /** Whether an event runs `checkAuth`. */
  predicate Checks(e: Event)
  {
    e.CheckAuth? || e.StorageChanged?
  }

  /**
   One event. Every event leaves the session consistent; loading ends
   exactly on the events that run `checkAuth`; a storage event adopts the
   other tab's store and re-derives the session from its token.
   */
  function Step(s: AuthState, e: Event): (r: AuthState)
    ensures Consistent(r)
    ensures r.isLoading <==> s.isLoading && !Checks(e)
    ensures e.StorageChanged? ==>
      r.store == e.newStore && (r.isAuthenticated <==> TruthyString(StoredToken(e.newStore)))
  {
    match e
    case CheckAuth => AfterCheckAuth(s)
    case Login(t) => AfterLogin(s, t)
    case Logout => AfterLogout(s)
    case StorageChanged(m) => AfterCheckAuth(s.(store := m))
  }

  function Run(s: AuthState, events: seq<Event>): AuthState
    decreases |events|
  {
    if events == [] then s else Run(Step(s, events[0]), events[1..])
  }

  /** After any sequence of events, `isAuthenticated == (token != null)` still holds. */
  lemma {:induction false} RunKeepsConsistent(s: AuthState, events: seq<Event>)
    requires Consistent(s)
    ensures Consistent(Run(s, events))
    decreases |events|
  {
    if events != [] {
      RunKeepsConsistent(Step(s, events[0]), events[1..]);
    }
  }

  /**
   The session is still loading after a sequence of events exactly when it
   was loading before and none of the events ran `checkAuth`.
   */
  lemma {:induction false} LoadingUntilChecked(s: AuthState, events: seq<Event>)
    ensures Run(s, events).isLoading <==>
      s.isLoading && forall i :: 0 <= i < |events| ==> !Checks(events[i])
    decreases |events|
  {
    if events != [] {
      LoadingUntilChecked(Step(s, events[0]), events[1..]);
      assert forall i :: 1 <= i < |events| ==> events[i] == events[1..][i - 1];
    }
  }

  /** Once `checkAuth` has run, `isLoading` never becomes true again. */
  lemma {:induction false} LoadingNeverReturns(s: AuthState, events: seq<Event>)
    ensures Run(AfterCheckAuth(s), events).isLoading == false
  {
    LoadingUntilChecked(AfterCheckAuth(s), events);
  }

  /** Logging out and re-checking leaves the anonymous state with both entries gone. */
  lemma {:induction false} CheckAfterLogout(s: AuthState)
    ensures var r := AfterCheckAuth(AfterLogout(s));
      r.token == None && !r.isAuthenticated && !r.isLoading
      && TokenKey !in r.store && EmailKey !in r.store
  {
  }

  /**
   Logging in with `t` and re-checking (as another tab's listener does)
   authenticates with `t` exactly when `t` is non-empty; an empty token is
   accepted by `login` but read back as no token.
   */
  lemma {:induction false} CheckAfterLogin(s: AuthState, t: string)
    ensures var r := AfterCheckAuth(AfterLogin(s, t));
      && (r.isAuthenticated <==> t != "")
      && (t != "" ==> r.token == Some(t))
      && (t == "" ==> r.token == None)
  {
  }

  /** Re-running `checkAuth` on an unchanged store changes nothing. */
  lemma {:induction false} CheckAuthIdempotent(s: AuthState)
    ensures AfterCheckAuth(AfterCheckAuth(s)) == AfterCheckAuth(s)
  {
  }

  /**
   The hook keeps `isLoading` and `isAuthenticated` as two independent
   booleans: a login that comes before the first check yields a session that
   is both loading and authenticated.
   */
  lemma {:induction false} LoginWhileLoading(store: map<string, string>, t: string)
    ensures var r := AfterLogin(Initial(store), t);
      r.isLoading && r.isAuthenticated
  {
  }

  /** `login("tok123")` then `logout()`: authenticated with the token stored, then anonymous with none. */
  lemma {:induction false} LoginLogoutScenario(store: map<string, string>)
    ensures var s1 := AfterLogin(AfterCheckAuth(Initial(store)), "tok123");
      s1.isAuthenticated && StoredToken(s1.store) == Some("tok123")
    ensures var s2 := AfterLogout(AfterLogin(AfterCheckAuth(Initial(store)), "tok123"));
      !s2.isAuthenticated && StoredToken(s2.store) == None
  {
  }

  // ---------------------------------------------------------------------------
  // The hook

  class Session {
    /** The browser's `localStorage`, shared with the pages. */
    const store: LocalStorage
    var token: Option<string>
    var isAuthenticated: bool
    var isLoading: bool

    /** The fields and the store as one snapshot. */
    ghost function State(): AuthState
      reads this, store
    {
      AuthState(token, isAuthenticated, isLoading, store.items)
    }

    /** The three `useState` initialisers. */
    constructor (store: LocalStorage)
      ensures this.store == store
      ensures State() == Initial(store.items)
    {
      this.store := store;
      token := None;
      isAuthenticated := false;
      isLoading := true;
    }

    /** `checkAuth`, run once on mount. */
    method CheckAuth()
      modifies this
      ensures State() == AfterCheckAuth(old(State()))
    {
      var storedToken := store.GetItem(TokenKey);
      if TruthyString(storedToken) {
        token := storedToken;
        isAuthenticated := true;
      } else {
        token := None;
        isAuthenticated := false;
      }
      isLoading := false;
    }

    /** The `storage` listener: another tab changed the store, so check again. */
    method HandleStorageChange()
      modifies this
      ensures State() == AfterCheckAuth(old(State()))
    {
      CheckAuth();
    }

    method Logout()
      modifies this, store
      ensures State() == AfterLogout(old(State()))
    {
      store.RemoveItem(TokenKey);
      store.RemoveItem(EmailKey);
      token := None;
      isAuthenticated := false;
    }

    method Login(newToken: string)
      modifies this, store
      ensures State() == AfterLogin(old(State()), newToken)
    {
      store.SetItem(TokenKey, newToken);
      token := Some(newToken);
      isAuthenticated := true;
    }
  }
}
