/** utilities/auth_helper.py: authentication by cookie injection.

    Two stores take part. The cookie cache is a dictionary from user key to
    a cookie list, created once per test run and shared by reference by every
    helper of that run. The browser context's cookie jar holds the cookies of
    the live session. `AfterAuth` and `AfterLogout` say, as functions on
    both stores at once, what the helper's methods do to them; the lemmas
    below state the caching rules in those terms. */
module CookieAuth {
  import opened Wrappers
  import opened Users
  import opened EnvironmentResolver

  datatype Cookie = Cookie(name: string, value: string, url: string, path: string, expires: int)

  const SessionCookieName: string := "session-username"

  /** `timedelta(days=1)`, in seconds. */
  const CookieLifetime: int := 86400

  /** The `KeyError` raised for an unknown user key, with the keys the
      environment does know, in order. */
  datatype AuthError = UserNotFound(userKey: string, available: seq<string>)

  /** The cache and the jar together. */
  datatype AuthState = AuthState(cache: map<string, seq<Cookie>>, jar: seq<Cookie>)

  /** The cookie built on a cache miss; `now` is the current time in whole
      seconds. */
  function SessionCookie(username: string, baseUrl: string, now: int): (c: Cookie)
    ensures c.name == "session-username" && c.value == username
    ensures c.url == baseUrl && c.path == "/" && c.expires == now + 86400
  {
    Cookie(SessionCookieName, username, baseUrl, "/", now + CookieLifetime)
  }

  /** `any(cookie['name'] == 'session-username' for cookie in cookies)`. */
  function HasSessionCookie(jar: seq<Cookie>): (b: bool)
    ensures b <==> exists i :: 0 <= i < |jar| && jar[i].name == SessionCookieName
  {
    if jar == [] then false
    else jar[0].name == SessionCookieName || HasSessionCookie(jar[1..])
  }

  /** The value of the first session cookie in jar order, `None` if there is
      none. */
  function FirstSessionValue(jar: seq<Cookie>): (r: Option<string>)
    ensures r.None? <==> !HasSessionCookie(jar)
    ensures r.Some? ==>
      exists i :: 0 <= i < |jar| && jar[i].name == SessionCookieName && jar[i].value == r.value &&
        forall j :: 0 <= j < i ==> jar[j].name != SessionCookieName
  {
    if jar == [] then None
    else if jar[0].name == SessionCookieName then Some(jar[0].value)
    else FirstSessionValue(jar[1..])
  }

  /** What `auth_with_cookie(user_key)` does to the cache and the jar: an
      unknown key fails and changes nothing; a cached key re-injects the
      cached cookies; otherwise a new session cookie is injected and cached. */
  function AfterAuth(env: Environment, s: AuthState, userKey: string, now: int): (r: Result<AuthState, AuthError>)
    ensures r.Failure? <==> userKey !in Keys(env.users)
    ensures r.Failure? ==> r.error == UserNotFound(userKey, Keys(env.users))
    ensures r.Success? ==>
      && userKey in r.value.cache
      && s.cache.Keys <= r.value.cache.Keys
      && |s.jar| <= |r.value.jar| && r.value.jar[..|s.jar|] == s.jar
  {
    match Lookup(env.users, userKey)
    case None => Failure(UserNotFound(userKey, Keys(env.users)))
    case Some(user) =>
      if userKey in s.cache then
        Success(AuthState(s.cache, s.jar + s.cache[userKey]))
      else
        var cookie := SessionCookie(user.username, env.baseUrl, now);
        Success(AuthState(s.cache[userKey := [cookie]], s.jar + [cookie]))
  }

  /** What `logout()` does: the jar is cleared, the cache is kept. */
  function AfterLogout(s: AuthState): (t: AuthState)
    ensures t.cache == s.cache
    ensures !HasSessionCookie(t.jar)
  {
    AuthState(s.cache, [])
  }

  /** Every cached cookie list carries a session cookie. Only `AfterAuth`
      writes to the cache, and it keeps this. */
  predicate CacheWellFormed(cache: map<string, seq<Cookie>>) {
    forall k :: k in cache ==> HasSessionCookie(cache[k])
  }

  /** The run-wide cookie cache, shared by reference. */
  class AuthCache {
    var entries: map<string, seq<Cookie>>

    constructor ()
      ensures entries == map[]
    {
      entries := map[];
    }
  }

  /** The browser context's cookie jar; adding appends. */
  class BrowserContext {
    var cookies: seq<Cookie>

    constructor ()
      ensures cookies == []
    {
      cookies := [];
    }

    method AddCookies(added: seq<Cookie>)
      modifies this
      ensures cookies == old(cookies) + added
    {
      cookies := cookies + added;
    }

    method ClearCookies()
      modifies this
      ensures cookies == []
    {
      cookies := [];
    }
  }

  /** `AuthHelper`, holding the page's browser context, the environment and
      the run's cache. Navigation (`goto`, `reload`) has no effect on either
      store and is not modelled. */
  class AuthHelper {
    const context: BrowserContext
    const env: Environment
    const cache: AuthCache

    constructor (context: BrowserContext, env: Environment, cache: AuthCache)
      ensures this.context == context && this.env == env && this.cache == cache
    {
      this.context := context;
      this.env := env;
      this.cache := cache;
    }

    function State(): AuthState
      reads context, cache
    {
      AuthState(cache.entries, context.cookies)
    }

    /** `auth_with_cookie`: changes the cache and the jar as `AfterAuth`
        says, and nothing else. */
    method AuthWithCookie(userKey: string, now: int) returns (r: Outcome<AuthError>)
      modifies context, cache
      ensures match AfterAuth(env, old(State()), userKey, now)
        case Success(t) => r == Pass && State() == t
        case Failure(e) => r == Fail(e) && State() == old(State())
      ensures r.Pass? ==> userKey in cache.entries
      ensures r.Pass? && CacheWellFormed(old(cache.entries)) ==> IsAuthenticated()
    {
      var userData := Lookup(env.users, userKey);
      if userData.None? {
        return Fail(UserNotFound(userKey, Keys(env.users)));
      }
      if userKey in cache.entries {
        context.AddCookies(cache.entries[userKey]);
      } else {
        var cookie := SessionCookie(userData.value.username, env.baseUrl, now);
        context.AddCookies([cookie]);
        cache.entries := cache.entries[userKey := [cookie]];
      }
      r := Pass;
      AuthThenAuthenticated(env, old(State()), userKey, now);
    }

    /** `is_authenticated`: a session cookie is in the jar. */
    function IsAuthenticated(): (b: bool)
      reads context
      ensures b <==> exists i :: 0 <= i < |context.cookies| && context.cookies[i].name == SessionCookieName
    {
      HasSessionCookie(context.cookies)
    }

    /** `get_current_user`: scans the jar in order and returns the value of
        the first session cookie; `None` exactly when not authenticated. */
    method GetCurrentUser() returns (user: Option<string>)
      ensures user == FirstSessionValue(context.cookies)
      ensures user.None? <==> !IsAuthenticated()
    {
      var cookies := context.cookies;
      var i := 0;
      while i < |cookies|
        invariant 0 <= i <= |cookies|
        invariant FirstSessionValue(cookies[i..]) == FirstSessionValue(cookies)
      {
        if cookies[i].name == SessionCookieName {
          return Some(cookies[i].value);
        }
        assert cookies[i..][1..] == cookies[i + 1..];
        i := i + 1;
      }
      return None;
    }

    /** `logout`: clears the jar and leaves the cache alone. */
    method Logout()
      modifies context
      ensures State() == AfterLogout(old(State()))
      ensures !IsAuthenticated()
    {
      context.ClearCookies();
    }
  }

  /** A session cookie is in a concatenation exactly when it is in a part. */
  lemma {:induction false} HasSessionCookieAppend(a: seq<Cookie>, b: seq<Cookie>)
    ensures HasSessionCookie(a + b) <==> HasSessionCookie(a) || HasSessionCookie(b)
  {
    if HasSessionCookie(a + b) {
      var i :| 0 <= i < |a + b| && (a + b)[i].name == SessionCookieName;
      if i >= |a| {
        assert b[i - |a|].name == SessionCookieName;
      }
    }
    if HasSessionCookie(a) {
      var i :| 0 <= i < |a| && a[i].name == SessionCookieName;
      assert (a + b)[i].name == SessionCookieName;
    }
    if HasSessionCookie(b) {
      var i :| 0 <= i < |b| && b[i].name == SessionCookieName;
      assert (a + b)[|a| + i].name == SessionCookieName;
    }
  }

  /** An unknown user key fails with the key and the list of known keys; a
      known key never fails. */
  lemma AuthUnknownUser(env: Environment, s: AuthState, userKey: string, now: int)
    ensures AfterAuth(env, s, userKey, now).Failure? <==> userKey !in Keys(env.users)
    ensures AfterAuth(env, s, userKey, now).Failure? ==>
      AfterAuth(env, s, userKey, now).error == UserNotFound(userKey, Keys(env.users))
  {
  }

  /** A cache hit injects the cached list and leaves the cache as it was. */
  lemma AuthCacheHit(env: Environment, s: AuthState, userKey: string, now: int)
    requires userKey in Keys(env.users) && userKey in s.cache
    ensures AfterAuth(env, s, userKey, now) == Success(AuthState(s.cache, s.jar + s.cache[userKey]))
  {
  }

  /** A cache miss injects exactly one new session cookie, whose value is the
      user's username, scoped to the base URL and path "/", expiring one day
      after `now`, and caches it under the key alone. */
  lemma AuthCacheMiss(env: Environment, s: AuthState, userKey: string, now: int)
    requires userKey in Keys(env.users) && userKey !in s.cache
    ensures var r := AfterAuth(env, s, userKey, now);
      && r.Success?
      && |r.value.jar| == |s.jar| + 1 && r.value.jar[..|s.jar|] == s.jar
      && var c := r.value.jar[|s.jar|];
      && c.name == "session-username"
      && c.value == Lookup(env.users, userKey).value.username
      && c.url == env.baseUrl && c.path == "/" && c.expires == now + 86400
      && r.value.cache == s.cache[userKey := [c]]
  {
  }

  /** The cache only grows: a successful call adds the key, and keeps every
      entry already there, unchanged. */
  lemma AuthCacheOnlyGrows(env: Environment, s: AuthState, userKey: string, now: int)
    requires AfterAuth(env, s, userKey, now).Success?
    ensures var t := AfterAuth(env, s, userKey, now).value;
      && t.cache.Keys == s.cache.Keys + {userKey}
      && (forall k :: k in s.cache ==> t.cache[k] == s.cache[k])
      && t.jar[..|s.jar|] == s.jar
  {
  }

  /** Authenticating the same user again, whatever the jar holds then and
      whatever the time, re-injects the very cookies cached the first time:
      no cookie is synthesized and the cache entry, expiry included, stays
      identical. */
  lemma AuthRepeatReusesCookie(
    env: Environment, s: AuthState, userKey: string, now1: int, jar: seq<Cookie>, now2: int)
    requires AfterAuth(env, s, userKey, now1).Success?
    ensures var t := AfterAuth(env, s, userKey, now1).value;
      AfterAuth(env, AuthState(t.cache, jar), userKey, now2) ==
        Success(AuthState(t.cache, jar + t.cache[userKey]))
  {
  }

  /** After a successful call the key is cached and the jar holds a session
      cookie, provided every cached list does; the cache stays well formed. */
  lemma {:induction false} AuthThenAuthenticated(env: Environment, s: AuthState, userKey: string, now: int)
    requires AfterAuth(env, s, userKey, now).Success?
    ensures var t := AfterAuth(env, s, userKey, now).value;
      && userKey in t.cache
      && (CacheWellFormed(s.cache) ==> CacheWellFormed(t.cache) && HasSessionCookie(t.jar))
  {
    var t := AfterAuth(env, s, userKey, now).value;
    if CacheWellFormed(s.cache) {
      if userKey in s.cache {
        HasSessionCookieAppend(s.jar, s.cache[userKey]);
      } else {
        var c := SessionCookie(Lookup(env.users, userKey).value.username, env.baseUrl, now);
        assert HasSessionCookie([c]) by { assert [c][0].name == SessionCookieName; }
        HasSessionCookieAppend(s.jar, [c]);
      }
    }
  }

  /** Logging out ends the live session but keeps the cache, so logging the
      same user in again re-injects the cached cookies and restores the
      session. */
  lemma {:induction false} LogoutThenReauth(env: Environment, s: AuthState, userKey: string, now: int)
    requires CacheWellFormed(s.cache)
    requires userKey in Keys(env.users) && userKey in s.cache
    ensures !HasSessionCookie(AfterLogout(s).jar) && AfterLogout(s).cache == s.cache
    ensures AfterAuth(env, AfterLogout(s), userKey, now) == Success(AuthState(s.cache, s.cache[userKey]))
    ensures HasSessionCookie(AfterAuth(env, AfterLogout(s), userKey, now).value.jar)
  {
    assert [] + s.cache[userKey] == s.cache[userKey];
  }
}
