# Service worker cache policy, modelled in Dafny

`sw.js` is the service worker of a small offline-capable web app. It keeps
its static assets in the browser's Cache Storage under one named cache
generation, `CACHE_NAME = "scalex-rally-v1"`, and applies three policies:

- **install** opens `CACHE_NAME`, creating it if absent. It then stores the
  ten URLs of `ASSETS` with `cache.addAll`, as one all-or-nothing batch.
- **activate** lists the cache names and deletes every generation whose name
  is not `CACHE_NAME`.
- **fetch** ignores requests whose method is not GET. A GET is answered
  cache-first through `caches.match`, which searches every generation in
  creation order. On a miss the worker asks the network. If the network
  answers, `CACHE_NAME` is opened, a copy is put into it (the put rejects a
  partial, 206, response and then stores nothing), and the network response
  is returned. If the network fails, the answer is whatever some cache holds for
  `"./index.html"`, possibly nothing.

The project has four files:

- `wrappers.dfy` holds the `Option` datatype.
- `cache_store.dfy` models Cache Storage. `Store` is the value of the whole
  store: cache names in creation order, plus a map from cache name to a map
  from URL to `Response`. Its functions `Open`, `Put`, `PutAll`, `Delete`,
  `Retain` and `Match` are the Cache API operations the worker uses.
  `FetchAll` is the fetch phase of `addAll`. `CacheStorage` is the mutable
  store object. Each of its methods updates the fields in place and is proved
  to produce the matching `Store` function's result.
- `service_worker.dfy` holds the constants, the per-request decision
  `Decide`, and the stores each handler leaves behind (`Installed`,
  `Activated`, `AfterFetch`). It also holds the three handlers as methods
  over a `CacheStorage`: `Install`, `Activate` (a loop over the listed
  names) and `HandleFetch`. Each handler is proved to produce exactly that
  store.
- `properties.dfy` holds the lemmas: what each handler guarantees, and how
  the handlers combine.

The network is an oracle `Url -> Option<Response>`: `None` is a failed
fetch. `addAll` counts a fetch as failed when its response has a status
outside 200-299, or the partial-content status 206, as the Cache API
requires. The fetch handler, like `fetch`
itself, counts any response as success and returns it, whatever its status.
It tries to cache it too, and `cache.put` stores every status except 206.
"No network call" is stated in two ways: the outcome is not one of the
network outcomes (`CallsNetwork`), and the outcome is the same for every
oracle.

The lookup is deliberately not scoped to the current generation, because
`caches.match` is not. Before activate prunes the store, an older
generation's entry is served, even when `CACHE_NAME` holds a newer copy
(`OlderGenerationShadowsCurrent`). After activate, only `CACHE_NAME` is seen
(`ActivatedLookupIsCurrentOnly`).

## Model

| member | source | states |
|---|---|---|
| CacheStore.MatchIn | sw.js:30 | the lookup finds an entry iff some listed cache holds the URL; the entry comes from the earliest such cache in creation order |
| CacheStore.MatchFirstHolder | sw.js:30-31 | the lookup returns the entry of the first cache, in creation order, that holds the URL |
| CacheStore.MatchSoleHolder | sw.js:30-31 | when exactly one listed cache holds the URL, the lookup returns its entry, wherever that cache stands in the order |
| CacheStore.FetchAll | sw.js:17 | the addAll batch succeeds iff every URL's fetch gives an ok, non-206 response; it then has exactly one entry per URL, equal to what the network returned |
| CacheStore.Without | sw.js:23 | removing a set of names keeps exactly the other names, in their original order, and keeps them distinct |
| CacheStore.MatchWithout | sw.js:23-30 | deleting caches that do not hold a URL leaves the lookup of that URL unchanged, so the remaining caches keep their creation order for the lookup |
| CacheStore.DeleteKeepsLookup | sw.js:23-30 | deleting a cache that does not hold a URL leaves the lookup of that URL unchanged |
| CacheStore.WithoutWithout | sw.js:23 | deleting one set of names and then another equals deleting their union |
| CacheStore.WithoutAbsent | sw.js:23 | deleting names that are not listed leaves the listing unchanged |
| CacheStore.WithoutAllBut | sw.js:23 | with distinct names, deleting all but `keep` leaves `[keep]`, or `[]` when `keep` is not listed |
| CacheStore.Store.Open | sw.js:17 | open creates the cache, empty and last in order, only when absent; every existing cache is unchanged; the store stays well-formed |
| CacheStore.Store.Put | sw.js:35 | an accepted put sets one URL of one cache; every other entry and cache is unchanged; the listing is unchanged |
| CacheStore.Store.PutAll | sw.js:17 | the batch entries overwrite the cache's entries; the other entries and caches are unchanged |
| CacheStore.Store.Delete | sw.js:23 | delete removes the cache and its listing; the other names stay listed in their original order; the other caches are unchanged |
| CacheStore.Store.Retain | sw.js:23 | only the kept name can remain, with its contents unchanged and the listing in its original order; the store stays well-formed |
| CacheStore.OpenKeepsLookup | sw.js:30-35 | opening a cache (empty, listed last when new) changes no lookup |
| CacheStore.MatchAppendEmpty | sw.js:30-35 | listing a new, empty cache after the others leaves the lookup of every URL unchanged |
| CacheStore.CacheStorage.Keys | sw.js:23 | caches.keys() yields the cache names in creation order |
| CacheStore.CacheStorage.Match | sw.js:30 | caches.match on the live store is the cross-generation lookup |
| CacheStore.CacheStorage.Open | sw.js:17 | the in-place open leaves the store that `Store.Open` gives |
| CacheStore.CacheStorage.Put | sw.js:35 | the in-place put stores iff the response is not a partial (206) one, and then leaves the store that `Store.Put` gives; otherwise the store is unchanged |
| CacheStore.CacheStorage.AddAll | sw.js:17 | addAll resolves iff every fetch gives an ok, non-206 response; it then stores the whole batch, and otherwise stores nothing |
| CacheStore.CacheStorage.Delete | sw.js:23 | delete reports whether the cache existed and removes it in place |
| ServiceWorker.Decide | sw.js:27-41 | a non-GET is not intercepted; a GET uses the network iff no cache holds it; a network outcome is the network's response, or on failure the lookup of `./index.html` |
| ServiceWorker.AfterFetch | sw.js:32-36 | only a network-answered miss can write to the store, and it creates no cache but `CACHE_NAME`; the store stays well-formed |
| ServiceWorker.Installed | sw.js:15-19 | after install the current generation exists; the store stays well-formed |
| ServiceWorker.Activated | sw.js:21-25 | after activate no cache other than `CACHE_NAME` exists |
| ServiceWorker.Install | sw.js:15-19 | the install handler reports success iff the whole batch was fetched, and leaves exactly the `Installed` store |
| ServiceWorker.Activate | sw.js:21-25 | deleting every listed name but `CACHE_NAME`, one at a time, leaves exactly the `Activated` store |
| ServiceWorker.HandleFetch | sw.js:27-41 | the fetch handler returns the `Decide` outcome and leaves exactly the `AfterFetch` store |
| Properties.NonGetNotIntercepted | sw.js:28 | a non-GET gets no response from the worker, and the store is unchanged |
| Properties.HitServedWithoutNetwork | sw.js:30-31 | a cached GET returns the cached entry with no network call (the same outcome for every oracle) and no store write |
| Properties.HitFromEarliestGeneration | sw.js:30-31 | a hit is served from the earliest generation holding the URL, whichever generation that is |
| Properties.MissFilledFromNetwork | sw.js:32-36 | on a miss answered by the network with a non-206 response, that response is returned and `CACHE_NAME` now maps the URL to it; every other cache, every other key and the well-formedness are kept |
| Properties.MissThenHit | sw.js:30-35 | after a miss filled from the network with a non-206 response, the identical GET is a hit on that response, whatever the network does |
| Properties.MissPartialNotStored | sw.js:30-36 | on a miss answered with a 206 response, that response is returned, the store only gains the opened `CACHE_NAME`, and the identical GET misses and goes to the network again |
| Properties.MissOffline | sw.js:38 | on a miss the network fails on, the answer is the lookup of `./index.html` (maybe nothing), and the store is unchanged |
| Properties.OlderGenerationShadowsCurrent | sw.js:30 | on an example store of two generations: before activate, an older generation's copy is served ahead of the current one; after activate, the current copy is served |
| Properties.FetchKeepsGenerations | sw.js:35 | a fetch never creates a generation other than `CACHE_NAME`, from any store |
| Properties.ActivateKeepsOnlyCurrent | sw.js:23 | after activate, the names are `[CACHE_NAME]` or `[]`, and `CACHE_NAME`'s contents are unchanged |
| Properties.ActivateIdempotent | sw.js:23 | activating twice has the same effect as activating once |
| Properties.ActivatedLookupIsCurrentOnly | sw.js:23-30 | after activate, a lookup answers from `CACHE_NAME` only |
| Properties.InstallSucceeds | sw.js:2-17 | when every asset fetch succeeds, `CACHE_NAME` holds every asset as fetched; its other entries and every other cache are unchanged |
| Properties.InstallFails | sw.js:17 | when some asset fetch fails, no batch entry is stored; `CACHE_NAME` exists with its previous contents, and the other caches are unchanged |
| Properties.PutAllTwice | sw.js:17 | storing the same batch twice equals storing it once |
| Properties.InstallIdempotent | sw.js:15-19 | installing twice against the same network equals installing once |
| Properties.InstalledAssetsServed | sw.js:2-31 | after a successful install and activate, every asset is served from the cache, as fetched at install time, without the network |
| Properties.InstalledShellOffline | sw.js:17-38 | after a successful install and activate, with the network down, every GET is answered from the cache or with the cached `./index.html` |

## Left out

- Event plumbing is not modelled: `addEventListener`, `waitUntil` and
  `respondWith`. Each handler is a method that returns its result. A
  `Fallback(None)` outcome stands for `respondWith` given nothing, which the
  page sees as a network error.
- `self.skipWaiting()` and `self.clients.claim()` are not modelled. They
  change which pages the worker controls, and no cache state depends on them.
- Promises and concurrency are not modelled. The unawaited `cache.put` of a
  fetch miss is a sequential store update that completes before the handler
  returns. Overlapping fetch handlers, and the browser retrying a failed
  install, are not modelled.
- Requests and responses are values. A request is a method and a URL, and
  cache keys are exact URL strings: no URL resolution (`./` and
  `./index.html` stay distinct), no Vary headers, no method matching inside
  `caches.match`. `res.clone()` is the response itself.
- CacheStore.CacheStorage.Put: does not model the Cache API rejecting a
  put of a response whose `Vary` header is `*`, because headers are not part
  of a response here. A rejection for a 206 response is modelled.
- CacheStore.FetchAll: does not model `addAll` rejecting a response whose
  `Vary` header is `*`, because headers are not part of a response here.
- CacheStore.FetchAll: does not model `addAll` rejecting a batch that names
  the same request twice. `ASSETS` has no duplicates, and the oracle gives
  one answer per URL.
- Storage failures are not modelled: `open`, `keys`, `delete`, `put` and
  `addAll` never fail for lack of space here. In a browser a quota error
  makes `addAll` reject, and so fails install, or drops the put of a fetch
  miss.
