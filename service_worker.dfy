/**
 * The service worker's cache policy: its version constant and asset list,
 * the per-request decision of the fetch handler, and the install, activate
 * and fetch handlers as methods over the shared Cache Storage.
 *
 * `Decide` is the pure decision a fetch event makes; `Installed`,
 * `Activated` and `AfterFetch` are the stores the three handlers leave
 * behind, and each handler method is proved to produce exactly that store.
 */
module ServiceWorker {
  import opened Wrappers
  import opened CacheStore

  /** The name of the current cache generation. */
  const CACHE_NAME: CacheName := "scalex-rally-v1"

  /** The assets pre-cached at install time. */
  const ASSETS: seq<Url> := [
    "./",
    "./index.html",
    "./manifest.webmanifest",
    "./assets/home/quick.png",
    "./assets/home/create.png",
    "./assets/home/pilots.png",
    "./assets/home/tracks.png",
    "./assets/home/history.png",
    "./assets/icons/icon-192.svg",
    "./assets/icons/icon-512.svg"
  ]

  /** The page served when the network fails on a cache miss. */
  const OFFLINE_PAGE: Url := "./index.html"

  datatype Request = Request(verb: string, url: Url)

  /** What the fetch handler does with one request. */
  datatype Outcome =
    | NotIntercepted                     // not a GET: the browser handles it
    | FromCache(response: Response)      // an entry found in some cache
    | FromNetwork(response: Response)    // a miss answered by the network
    | Fallback(page: Option<Response>)   // a miss the network failed on
  {
    /** The outcome came from a network call. */
    predicate CallsNetwork() {
      FromNetwork? || Fallback?
    }

    /** The outcome may write to the store. */
    predicate Writes() {
      FromNetwork?
    }
  }

  /** The fetch handler's decision for `req` given the store before the
      request and the network oracle. */
  function Decide(s: Store, req: Request, net: Network): (o: Outcome)
    ensures o.NotIntercepted? <==> req.verb != "GET"
    ensures o.FromCache? ==> s.Match(req.url) == Some(o.response)
    ensures o.CallsNetwork() <==> req.verb == "GET" && s.Match(req.url).None?
    ensures o.FromNetwork? ==> net(req.url) == Some(o.response)
    ensures o.Fallback? ==> net(req.url).None? && o.page == s.Match(OFFLINE_PAGE)
  {
    if req.verb != "GET" then NotIntercepted
    else match s.Match(req.url)
      case Some(cached) => FromCache(cached)
      case None =>
        match net(req.url)
        case Some(res) => FromNetwork(res)
        case None => Fallback(s.Match(OFFLINE_PAGE))
  }

  /** The store after the fetch handler has run for `req`: on a miss the
      network answers, the current generation is opened and the response is
      put into it, unless the put rejects it. */
  function AfterFetch(s: Store, req: Request, net: Network): (s': Store)
    ensures !Decide(s, req, net).Writes() ==> s' == s
    ensures Decide(s, req, net).Writes() ==> s'.caches.Keys == s.caches.Keys + {CACHE_NAME}
    ensures s.Valid() ==> s'.Valid()
  {
    match Decide(s, req, net)
    case FromNetwork(res) =>
      var withCurrent := s.Open(CACHE_NAME);
      if PutAccepts(res) then withCurrent.Put(CACHE_NAME, req.url, res) else withCurrent
    case _ => s
  }

  /** The store after install: the current generation is opened (created if
      absent), then filled with every asset as one all-or-nothing batch. */
  function Installed(s: Store, net: Network): (s': Store)
    ensures s.Valid() ==> s'.Valid()
    ensures CACHE_NAME in s'.caches
  {
    var withCurrent := s.Open(CACHE_NAME);
    match FetchAll(ASSETS, net)
    case None => withCurrent
    case Some(batch) => withCurrent.PutAll(CACHE_NAME, batch)
  }

  /** The store after activate: every generation but the current one is
      deleted. */
  function Activated(s: Store): (s': Store)
    ensures s'.caches.Keys <= {CACHE_NAME}
  {
    s.Retain(CACHE_NAME)
  }

  /** The names doomed by activate among `ks`. */
  function Stale(ks: seq<CacheName>): set<CacheName> {
    set k | k in ks && k != CACHE_NAME
  }

  /** The install handler; `ok` is whether the install step succeeded. */
  method Install(storage: CacheStorage, net: Network) returns (ok: bool)
    requires storage.Valid()
    modifies storage
    ensures storage.Valid()
    ensures ok <==> FetchAll(ASSETS, net).Some?
    ensures storage.Snapshot() == Installed(old(storage.Snapshot()), net)
  {
    storage.Open(CACHE_NAME);
    ok := storage.AddAll(CACHE_NAME, ASSETS, net);
  }

  /** The activate handler: list the cache names, delete each one that is
      not the current generation. */
  method Activate(storage: CacheStorage)
    requires storage.Valid()
    modifies storage
    ensures storage.Valid()
    ensures storage.Snapshot() == Activated(old(storage.Snapshot()))
  {
    var ks := storage.Keys();
    ghost var s0 := storage.Snapshot();
    ghost var dead: set<CacheName> := {};
    PrunedNothing(s0);
    for i := 0 to |ks|
      invariant dead == Stale(ks[..i])
      invariant storage.Snapshot() == Pruned(s0, dead)
    {
      StaleStep(ks, i);
      if ks[i] != CACHE_NAME {
        var _ := storage.Delete(ks[i]);
        PrunedStep(s0, dead, ks[i]);
        dead := dead + {ks[i]};
      }
    }
    assert ks[..|ks|] == ks;
    StaleListed(s0);
  }

  /** `s` with the caches named in `dead` deleted. */
  function Pruned(s: Store, dead: set<CacheName>): Store {
    Store(Without(s.names, dead), s.caches - dead)
  }

  /** Deleting nothing changes nothing. */
  lemma PrunedNothing(s: Store)
    ensures Pruned(s, {}) == s
  {
    WithoutAbsent(s.names, {});
    assert s.caches - {} == s.caches;
  }

  /** Deleting one more cache extends the deleted set by its name. */
  lemma PrunedStep(s: Store, dead: set<CacheName>, k: CacheName)
    ensures Pruned(s, dead).Delete(k) == Pruned(s, dead + {k})
  {
    WithoutWithout(s.names, dead, {k});
    assert s.caches - dead - {k} == s.caches - (dead + {k});
  }

  /** The doomed names of a listing grow by its last name unless that is `CACHE_NAME`. */
  lemma StaleStep(ks: seq<CacheName>, i: nat)
    requires i < |ks|
    ensures Stale(ks[..i + 1]) == if ks[i] == CACHE_NAME then Stale(ks[..i]) else Stale(ks[..i]) + {ks[i]}
  {
    assert ks[..i + 1] == ks[..i] + [ks[i]];
  }

  /** Pruning the stale names of a well-formed store's listing is activating it. */
  lemma StaleListed(s: Store)
    requires s.Valid()
    ensures Pruned(s, Stale(s.names)) == Activated(s)
  {
    assert Stale(s.names) == s.caches.Keys - {CACHE_NAME};
  }

  /** The fetch handler. */
  method HandleFetch(storage: CacheStorage, req: Request, net: Network) returns (o: Outcome)
    requires storage.Valid()
    modifies storage
    ensures storage.Valid()
    ensures o == Decide(old(storage.Snapshot()), req, net)
    ensures storage.Snapshot() == AfterFetch(old(storage.Snapshot()), req, net)
  {
    if req.verb != "GET" {
      return NotIntercepted;
    }
    var cached := storage.Match(req.url);
    if cached.Some? {
      return FromCache(cached.value);
    }
    match net(req.url)
    case Some(res) =>
      storage.Open(CACHE_NAME);
      var _ := storage.Put(CACHE_NAME, req.url, res);
      o := FromNetwork(res);
    case None =>
      var page := storage.Match(OFFLINE_PAGE);
      o := Fallback(page);
  }
}
