# Navigation guard and realtime connection cache

A model of two pieces of a browser game front-end:

- **The router** (`src/router/index.js`): a static route table of six
  records — the root `/` redirects to `/login`; `/login` and `/register` are
  open screens; `/loading`, `/lobby` and `/game` carry `requiresAuth` — and a
  global `beforeEach` guard. The guard reads the stored token and redirects a
  visitor without a session away from protected screens to `/login`, and a
  visitor with a session away from `/login` and `/register` to `/lobby`;
  otherwise the navigation proceeds.
- **The connection manager** (`src/services/socket.js`): a single cached
  socket.io handle. `getSocket` returns the cached handle, or opens one
  connection (websocket transport only, the token as `auth` when there is
  one) and caches it; `disconnectSocket` closes and forgets the cached
  handle, and does nothing when there is none.

Modules:

- `Wrappers` (`wrappers.dfy`): `Option`, standing for `null`/`undefined`.
- `Credential` (`credential.dfy`): the stored token and its JavaScript
  truthiness (`Present`): absent and `""` both mean "no session".
- `Router` (`router.dfy`): the table `Routes`; `Matches`, the router's
  default path matching (letter case ignored, the declared path optionally
  followed by one `/`, so the root record accepts `/` and `//`);
  first-match `Lookup`; `Resolve` (redirect records are followed before
  guards run, a matched screen keeps the spelling it was requested with,
  unmatched paths have empty `meta`); the access policy `Permitted`; the
  `Guard`; and `Navigate`, the page a navigation finally lands on.
- `Socket` (`socket.dfy`): the module-level variable becomes an explicit
  `Cache` value (`socket` plus `nextId`, the identity the opaque `io`
  constructor hands out next); each operation returns the new cache and the
  list of calls it makes into the library (`Io`, `Disconnect`). `Run`
  replays a sequence of uses, and `Disciplined` states the call discipline:
  `io` only while nothing is live, each with a never-used identity, and
  `disconnect` only on the live handle.

The stored token and the endpoint URL (`import.meta.env.VITE_API_URL`) are
parameters: the token is an `Option<string>` passed to each guard run and
each `getSocket`, the URL a `string`.

## Model

| member | source | states |
|---|---|---|
| Credential.Present | src/router/index.js:24-27 | a stored token counts as a session exactly when it is neither absent (`null`) nor the empty string, the two falsy values `localStorage.getItem` can yield |
| Router.Lookup | src/router/index.js:11-20 | the result is the index of the first table record that matches the requested path (letter case ignored, the declared path optionally followed by one `/`), and it is absent exactly when no record matches |
| Router.LookupFirst | src/router/index.js:11-20 | a record matching the path with no earlier record matching it is the one found |
| Router.RecordsDisjoint | src/router/index.js:11-20 | no requested path matches two records of the table |
| Router.Resolve | src/router/index.js:11-20 | an unmatched path resolves to itself with no `requiresAuth`; the only path rewritten is one matching the root record, which becomes `/login`, unprotected; a protected target is always matched by a protected screen record |
| Router.MatchedScreen | src/router/index.js:14-19 | any spelling the matcher takes for a screen's path resolves to that screen's `requiresAuth` flag and keeps the requested spelling |
| Router.ResolveTable | src/router/index.js:12-19 | `/` resolves to `/login` (unprotected); each screen path resolves to itself with its declared flag: `/login` and `/register` open, `/loading`, `/lobby`, `/game` protected |
| Router.ProtectedRoutes | src/router/index.js:14-19 | a requested path resolves to a protected target exactly when it matches `/loading`, `/lobby` or `/game` (in any letter case, with or without a trailing `/`); every other path, in the table or not, is unprotected |
| Router.ProtectedSpelling | src/router/index.js:18-26 | `/Lobby/` reaches the lobby screen as a protected target, and without a session the navigation lands on `/login` |
| Router.GuestSpelling | src/router/index.js:14-27 | `/Login` reaches the login screen, but the guard compares the literal path, so a visitor with a session stays on `/Login` |
| Router.RootSpellings | src/router/index.js:12-27 | `//` matches the root record and is redirected to `/login` (and, with a session, lands on `/lobby`); the empty path matches no record and resolves to itself unprotected |
| Router.RedirectTargets | src/router/index.js:14-18 | the two redirect targets resolve to themselves: `/login` open, `/lobby` protected |
| Router.Guard | src/router/index.js:23-28 | redirect to `/login` exactly when the target requires auth and the token is absent or empty; redirect to `/lobby` exactly when the target is `/login` or `/register` and the token is non-empty; no redirect exactly when the access policy permits the target |
| Router.NoRedirectLoop | src/router/index.js:17-19 | whenever the guard redirects, the guard lets the redirect target through under the same token |
| Router.GuardIgnoresTokenContents | src/router/index.js:24-27 | two tokens with the same truthiness get the same decision for every target |
| Router.Navigate | src/router/index.js:23-28 | a navigation lands on a permitted page; on the requested one when it is permitted; otherwise on `/lobby` with a session and on `/login` without one |
| Socket.OptionsFor | src/services/socket.js:14-17 | the transport list is exactly `['websocket']`; the auth payload carries the token exactly when the token is truthy, and then carries that very token |
| Socket.GetSocket | src/services/socket.js:9-20 | with a handle cached: that handle is returned, the cache is unchanged and no call is made; otherwise one `io` call opens a new handle with the next identity, the configured URL and the options above, and it is cached and returned |
| Socket.DisconnectSocket | src/services/socket.js:22-27 | the cache is left empty; a cached handle gets exactly one `disconnect` call; with nothing cached nothing changes and nothing is called |
| Socket.GetSocketIdempotent | src/services/socket.js:10 | a second `getSocket` with no disconnect in between returns the same handle, leaves the cache as it was and makes no call, whatever token or URL it sees |
| Socket.CachedGetIgnoresToken | src/services/socket.js:10-12 | with a handle cached the outcome does not depend on the stored token |
| Socket.DisconnectIdempotent | src/services/socket.js:23 | a second `disconnectSocket` changes nothing and calls nothing |
| Socket.ReconnectIsFresh | src/services/socket.js:10-25 | after a disconnect, the next `getSocket` makes one `io` call and gets a handle whose identity was never used before, so it differs from the handle just closed |
| Socket.GetsShareHandle | src/services/socket.js:9-20 | a run of `getSocket` calls with no disconnect returns one handle per call, every one of them the handle cached at the end |
| Socket.RunDisciplined | src/services/socket.js:3-27 | from any state whose used identities lie below the next one, every sequence of `getSocket`/`disconnectSocket` calls opens connections only while none is live, each with a new identity, and disconnects only the live handle |
| Socket.SingleLiveConnection | src/services/socket.js:3-27 | from page load, every sequence of uses keeps at most one live connection, each opened fresh and closed at most once |

## Left out

- The resource-access functions in `src/services/alliances.js`, `src/services/auth.js`, `src/services/profile.js` and `src/services/user.js`: each is a single HTTP request through the `./api` client, which is not part of this model; their behaviour is network I/O.
- vue-router itself (`createRouter`, `createWebHistory`) and the screen components: library and UI code. The model keeps only the vue-router behaviour that decides the guard's inputs and the final page:
  - its default path matching: letter case is ignored, and the declared path may be followed by one `/`;
  - a redirect record is followed before guards run;
  - `to.path` keeps the spelling the path was requested with;
  - an unmatched path has an empty `meta`, so it is unprotected;
  - a redirect returned by a guard starts a new navigation, which is guarded again.
- Chained redirect records are not followed: the table has none. Records are tried in declaration order rather than by vue-router's ranking, which picks the same record here because no two records match the same path (`Router.RecordsDisjoint`). Letter case is folded for ASCII letters only; the table's paths are ASCII, and a case-insensitive JavaScript regular expression without the `u` flag never folds a non-ASCII character onto an ASCII one, so the same paths match.
- socket.io-client's connection, reconnection and event behaviour: `io` and `disconnect` are opaque calls, recorded in the returned call list.
- `localStorage` and `import.meta.env`: the token and the endpoint URL are parameters. The URL may be `undefined` in the source; here it is a string.
- Concurrency: execution is single-threaded and `getSocket` is synchronous, so the check-then-create sequence is atomic; no interleaving is modelled.
