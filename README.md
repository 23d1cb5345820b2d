# Swag Labs test-suite core, modelled in Dafny

The repository is a Playwright end-to-end test suite for the "Swag Labs"
demo shop. Nearly all of it drives a browser. Three pieces hold logic of
their own, and this project models and proves them:

- **Environment resolution** (`support/environment.py`, with the credential
  pools of `users/users.py`). An environment prefix such as `qa`, `ci`,
  `dev`, `www` or `production` is classified as CI-like or production-like,
  a base URL `https://<prefix>.<domain>` is built, the configuration file
  for the classification is loaded, and the matching credential pool is
  validated. The prefix field is lower-cased, but the host and the base
  URL keep the argument's own case: `"QA"` is CI-like and its base URL is
  `https://QA.saucedemo.com`. A missing configuration file is reported
  before a missing password, because the configuration is loaded first.
  Only a `None` password is rejected; an empty one passes. The error names
  the first such user in pool order. The `timeout`, `viewport` and
  `screenshots_on_failure` lookups fall back to 30000, 1920 x 1080 and
  `true`.
  Files: `users.dfy`, `environment.dfy`.
- **Cookie authentication** (`utilities/auth_helper.py`). A run-wide cookie
  cache (user key to cookie list, shared by reference) and the browser
  context's cookie jar. `AuthWithCookie` fails for an unknown key and
  changes nothing. On a cache hit it re-injects the cached cookies. On a
  miss it builds one `session-username` cookie, injects it and caches it.
  `IsAuthenticated` and `GetCurrentUser` read the jar. `Logout` clears the
  jar and keeps the cache, so a later login of the same user reuses the
  cached cookie, expiry included. The pure functions `AfterAuth` and
  `AfterLogout` state what the methods of the `AuthHelper` class do to
  both stores; the lemmas about them state the caching rules.
  File: `auth_helper.dfy`.
- **Inventory helpers** (`pages/inventory_page.py`). The add-to-cart test id
  `add-to-cart-<name lower-cased, spaces turned into hyphens>`, and the
  check that a price list is in `hilo` (non-increasing) or `lohi`
  (non-decreasing) order, any other option passing.
  File: `inventory_page.dfy`.

`wrappers.dfy` holds `Option`, `Result` and `Outcome`. `strings.dfy` holds
`lower()` and single-character `replace()`.

## Model

| member | source | states |
|---|---|---|
| Strings.Lower | pages/inventory_page.py:35 | `lower()` keeps the length and lowers every character in place |
| Strings.Replace | pages/inventory_page.py:35 | `replace(' ', '-')` keeps the length, replaces every occurrence and keeps every other character |
| Users.ProductionUsers | users/users.py:11-24 | the production pool holds "standard_user", "locked_out_user" and "problem_user" in that order, each with its key as username and the production password |
| Users.CiUsers | users/users.py:27-40 | the CI pool holds the same three keys in the same order, each with its key as username and the CI password |
| Users.Keys | utilities/auth_helper.py:26 | `list(users.keys())`: the pool's keys, one per entry, in pool order |
| Users.Lookup | utilities/auth_helper.py:21-27 | a key lookup fails exactly when the key is not among the pool's keys; on success the record is one stored under that key |
| EnvironmentResolver.GetAutomationUsers | support/environment.py:41-48 | picks CI_USERS when CI-like and PRODUCTION_USERS otherwise; succeeds exactly when every password is present, returning the pool unchanged; otherwise fails naming the first user, in pool order, whose password is `None` |
| EnvironmentResolver.NewEnvironment | support/environment.py:16-23 | the missing-config error comes first; with the config present, a missing password fails naming the first such user; on success the protocol is "https://", the prefix is the lower-cased argument, the classification is that of the lower-cased prefix, the host and base URL `https://<arg>.<domain>` use the raw argument, and the config and users are the ones for the classification |
| EnvironmentResolver.IsCiEnvironment | support/environment.py:25-27 | a (lower-cased) prefix is CI-like exactly when it is "qa", "dev" or "ci" |
| EnvironmentResolver.LoadConfig | support/environment.py:29-39 | reads `ci_config.json` when CI-like and `production_config.json` otherwise; succeeds exactly when that file exists, with its content, and otherwise fails naming that file |
| EnvironmentResolver.SetBaseUrl | support/environment.py:50-52 | the base URL is the protocol followed by the host, nothing added or dropped |
| EnvironmentResolver.Timeout | support/environment.py:54-57 | the configured `timeout` when present, 30000 otherwise |
| EnvironmentResolver.Viewport | support/environment.py:59-62 | the configured `viewport` when present, width 1920 / height 1080 otherwise |
| EnvironmentResolver.ScreenshotsOnFailure | support/environment.py:65-68 | the configured `screenshots_on_failure` when present, `true` otherwise |
| EnvironmentResolver.UpperCaseCiPrefixes | support/environment.py:17-20 | "QA" and "Dev" are classified as CI-like |
| EnvironmentResolver.ProductionPrefixes | support/environment.py:25-27 | "www" and "production" are not CI-like |
| EnvironmentResolver.UpperCasePrefixKeepsCaseInUrl | support/environment.py:16-23 | the Environment that `NewEnvironment` builds for "QA" is CI-like with prefix "qa", yet its base URL is `https://QA.saucedemo.com` |
| EnvironmentResolver.PoolValidation | support/environment.py:43-47 | both pools pass exactly when their password variable is set, an empty password included; unset, the error names "standard_user" |
| CookieAuth.SessionCookie | utilities/auth_helper.py:40-46 | the new cookie is named `session-username`, carries the username, is scoped to the base URL and path "/", and expires at `now + 86400` |
| CookieAuth.AfterAuth | utilities/auth_helper.py:21-50 | fails exactly for a key unknown to the environment, with the key and the known keys; on success the key is cached, no cached key is lost, and the jar keeps its earlier cookies in front |
| CookieAuth.AfterLogout | utilities/auth_helper.py:75-79 | the cache is kept and the jar holds no session cookie |
| CookieAuth.AuthCache.constructor | conftest.py:51-54 | the run-wide cache starts empty |
| CookieAuth.BrowserContext.AddCookies | utilities/auth_helper.py:49 | `add_cookies` appends the given cookies to the jar, in order |
| CookieAuth.BrowserContext.ClearCookies | utilities/auth_helper.py:78 | `clear_cookies` empties the jar |
| CookieAuth.HasSessionCookie | utilities/auth_helper.py:59-60 | the jar has a session cookie exactly when some cookie in it is named `session-username` |
| CookieAuth.FirstSessionValue | utilities/auth_helper.py:69-73 | `None` exactly when there is no session cookie; otherwise the value of a session cookie with no session cookie before it |
| CookieAuth.AuthHelper.constructor | utilities/auth_helper.py:9-12 | the helper holds the given context, environment and shared cache |
| CookieAuth.AuthHelper.AuthWithCookie | utilities/auth_helper.py:14-50 | changes the cache and the jar exactly as `AfterAuth` says, and leaves both unchanged on an unknown key; on success the key is cached and, for a well-formed cache, the user is authenticated |
| CookieAuth.AuthHelper.IsAuthenticated | utilities/auth_helper.py:52-60 | true exactly when some cookie in the jar is named `session-username`; reads only the jar |
| CookieAuth.AuthHelper.GetCurrentUser | utilities/auth_helper.py:62-73 | returns the value of the first session cookie in jar order, and `None` exactly when not authenticated |
| CookieAuth.AuthHelper.Logout | utilities/auth_helper.py:75-79 | the jar becomes empty, so the user is no longer authenticated; the cache is untouched |
| CookieAuth.AuthUnknownUser | utilities/auth_helper.py:21-27 | authentication fails exactly for a key unknown to the environment, with an error carrying the key and the list of known keys |
| CookieAuth.AuthCacheHit | utilities/auth_helper.py:32-36 | on a cache hit the cached cookies are appended to the jar and the cache is unchanged |
| CookieAuth.AuthCacheMiss | utilities/auth_helper.py:37-50 | on a miss exactly one cookie is appended, named `session-username`, valued with the user's username, scoped to the base URL and path "/", expiring at `now + 86400`; the cache gains that key mapped to that single cookie |
| CookieAuth.AuthCacheOnlyGrows | utilities/auth_helper.py:32-50 | a successful call adds the key to the cache, keeps every other entry unchanged, and keeps the jar's earlier cookies |
| CookieAuth.AuthRepeatReusesCookie | utilities/auth_helper.py:32-50 | authenticating the same user again, at any later time and whatever the jar holds, re-injects the first call's cached cookies and leaves the cache, expiry included, identical |
| CookieAuth.AuthThenAuthenticated | utilities/auth_helper.py:32-60 | after a successful call the key is cached and, if every cached list carried a session cookie, the jar holds one and the cache stays so |
| CookieAuth.LogoutThenReauth | utilities/auth_helper.py:75-79 | logout ends the session but keeps the cache, and logging the same user in again re-injects the cached cookies and restores the session |
| InventoryPage.AddToCartTestId | pages/inventory_page.py:34-36 | the id is `add-to-cart-` followed by the name, character for character, with a space turned into `-` and a letter lower-cased |
| InventoryPage.TestIdSuffixNormalized | pages/inventory_page.py:35 | the part after the prefix contains no space and no upper-case letter |
| InventoryPage.AreItemsSortedAsExpected | pages/inventory_page.py:51-78 | with "hilo" true exactly when no adjacent pair rises, with "lohi" exactly when no adjacent pair falls, with any other option always true; lists of at most one price always pass |
| InventoryPage.NonIncreasingIsGlobal | pages/inventory_page.py:72-74 | the adjacent-pair "hilo" check holds exactly when every earlier price is at least every later one |
| InventoryPage.NonDecreasingIsGlobal | pages/inventory_page.py:75-76 | the adjacent-pair "lohi" check holds exactly when every earlier price is at most every later one |

## Left out

- Strings.Lower: maps only the ASCII letters A-Z. Python's `str.lower()` follows Unicode and may change the length of some non-ASCII strings, so the classification and `InventoryPage.AddToCartTestId` are exact for ASCII input only.
- File I/O in `_load_config`: the configuration files are an input map from file name to parsed JSON object. A missing entry is the `FileNotFoundError`, which carries only the file name, not the directory. A file holding a non-object or malformed JSON is not modelled, and neither are JSON floats.
- `load_dotenv` and `os.getenv` in `users/users.py`: the two passwords are `Option<string>` inputs.
- `datetime.now()` and the truncation of its float timestamp: `now` is a whole number of seconds.
- CookieAuth.SessionCookie: the expiry is always `now + 86400`. The source adds one day of local wall-clock time to a naive `datetime.now()` and converts back through local time, so when a daylight-saving change falls within the next 24 hours the expiry is `now + 82800` or `now + 90000`; time zones are not modelled.
- Playwright's cookie-jar semantics (replacing a cookie with the same name, domain and path): the jar is a sequence and adding appends.
- `page.goto` before injecting cookies and `page.reload` after logout: these navigations do not touch either store and are not modelled.
- Reading prices from the page and `float(price_text.replace("$", ""))`: prices are integers, such as cents, read already.
- `print` calls.
- `conftest.py`: pytest fixtures (including the check that `--env` is given), browser launch arguments and the screenshot report hook are test-runner plumbing.
- `factories/pages.py`: `authenticate` is an empty stub and the memoised page accessors are commented out, so there is nothing to model beyond storing the constructor's arguments.
- `pages/base_page.py`, `pages/login/login_page.py`, `components/header.py`, `components/sidebar_menu.py` and the `tests/` files: locators and thin calls into Playwright.
