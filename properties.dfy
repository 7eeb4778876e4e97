/**
 * What the cache policy guarantees, stated over the stores the handlers
 * leave behind (`Installed`, `Activated`, `AfterFetch`) and the fetch
 * decision (`Decide`).  The handler methods are proved to produce exactly
 * these stores, so every property here holds of them too.
 */
module Properties {
  import opened Wrappers
  import opened CacheStore
  import opened ServiceWorker

  // ---------------------------------------------------------------- fetch

  /** A request that is not a GET is left to the browser: no response from
      the worker, no cache read or write. */
  lemma NonGetNotIntercepted(s: Store, req: Request, net: Network)
    requires req.verb != "GET"
    ensures Decide(s, req, net) == NotIntercepted
    ensures AfterFetch(s, req, net) == s
  {
  }

  /** A GET that some cache can answer is answered from the cache: the
      network is not consulted (any oracle gives the same outcome) and the
      store is not written. */
  lemma HitServedWithoutNetwork(s: Store, req: Request, net: Network, other: Network, cached: Response)
    requires req.verb == "GET" && s.Match(req.url) == Some(cached)
    ensures Decide(s, req, net) == FromCache(cached) == Decide(s, req, other)
    ensures !Decide(s, req, net).CallsNetwork()
    ensures AfterFetch(s, req, net) == s
  {
  }

  /** A hit is answered from the earliest cache generation that holds the
      URL, whether or not that is the current generation. */
  lemma HitFromEarliestGeneration(s: Store, req: Request, net: Network, i: nat)
    requires req.verb == "GET"
    requires i < |s.names| && Holds(s.caches, s.names[i], req.url)
    requires forall j :: 0 <= j < i ==> !Holds(s.caches, s.names[j], req.url)
    ensures Decide(s, req, net) == FromCache(s.caches[s.names[i]][req.url])
  {
    MatchFirstHolder(s.names, s.caches, req.url, i);
  }

  /** A miss the network answers with a response the put accepts: the
      network response is returned, the current generation now maps the URL
      to it, and nothing else changes (other caches, other keys; at most the
      current generation is created). */
  lemma MissFilledFromNetwork(s: Store, req: Request, net: Network, res: Response)
    requires s.Valid()
    requires req.verb == "GET" && s.Match(req.url).None? && net(req.url) == Some(res)
    requires PutAccepts(res)
    ensures Decide(s, req, net) == FromNetwork(res)
    ensures var s' := AfterFetch(s, req, net);
      && s'.Valid()
      && s'.caches.Keys == s.caches.Keys + {CACHE_NAME}
      && s'.caches[CACHE_NAME][req.url] == res
      && (forall n :: n in s.caches && n != CACHE_NAME ==> s'.caches[n] == s.caches[n])
      && (forall u :: u != req.url ==> (u in s'.caches[CACHE_NAME] <==> Holds(s.caches, CACHE_NAME, u)))
      && (forall u :: u != req.url && Holds(s.caches, CACHE_NAME, u) ==>
            s'.caches[CACHE_NAME][u] == s.caches[CACHE_NAME][u])
  {
  }

  /** Miss, then populate: once a miss has been filled from the network,
      the same GET is a hit on that response, whatever the network does. */
  lemma MissThenHit(s: Store, req: Request, net: Network, again: Request, later: Network)
    requires s.Valid()
    requires req.verb == "GET" && s.Match(req.url).None? && net(req.url).Some?
    requires PutAccepts(net(req.url).value)
    requires again.verb == "GET" && again.url == req.url
    ensures Decide(AfterFetch(s, req, net), again, later) == FromCache(net(req.url).value)
  {
    var s' := AfterFetch(s, req, net);
    forall n | n != CACHE_NAME
      ensures !Holds(s'.caches, n, req.url)
    {
      if Holds(s'.caches, n, req.url) {
        assert Holds(s.caches, n, req.url);
      }
    }
    MatchSoleHolder(s'.names, s'.caches, req.url, CACHE_NAME);
  }

  /** A miss the network answers with a partial (206) response: the response
      is returned, but the put rejects it, so the store only gains the (maybe
      new, empty) current generation and the same GET misses again. */
  lemma MissPartialNotStored(s: Store, req: Request, net: Network, res: Response, again: Request)
    requires req.verb == "GET" && s.Match(req.url).None? && net(req.url) == Some(res)
    requires !PutAccepts(res)
    requires again.verb == "GET" && again.url == req.url
    ensures Decide(s, req, net) == FromNetwork(res)
    ensures AfterFetch(s, req, net) == s.Open(CACHE_NAME)
    ensures Decide(AfterFetch(s, req, net), again, net) == FromNetwork(res)
  {
    OpenKeepsLookup(s, CACHE_NAME, req.url);
  }

  /** A miss the network fails on: the answer is whatever some cache holds
      for the offline page, possibly nothing, and the store is unchanged. */
  lemma MissOffline(s: Store, req: Request, net: Network)
    requires req.verb == "GET" && s.Match(req.url).None? && net(req.url).None?
    ensures Decide(s, req, net) == Fallback(s.Match(OFFLINE_PAGE))
    ensures AfterFetch(s, req, net) == s
  {
  }

  /** An example, on one store of two generations, of the lookup not being
      scoped to the current generation: before activate prunes the store, an
      older generation's copy is served even when the current generation
      holds a newer one.  `HitFromEarliestGeneration` is the general fact. */
  lemma OlderGenerationShadowsCurrent(stale: Response, current: Response, net: Network)
    ensures var s := Store(["scalex-rally-v0", CACHE_NAME],
                           map["scalex-rally-v0" := map[OFFLINE_PAGE := stale],
                               CACHE_NAME := map[OFFLINE_PAGE := current]]);
      && s.Valid()
      && Decide(s, Request("GET", OFFLINE_PAGE), net) == FromCache(stale)
      && Decide(Activated(s), Request("GET", OFFLINE_PAGE), net) == FromCache(current)
  {
    var s := Store(["scalex-rally-v0", CACHE_NAME],
                   map["scalex-rally-v0" := map[OFFLINE_PAGE := stale],
                       CACHE_NAME := map[OFFLINE_PAGE := current]]);
    MatchFirstHolder(s.names, s.caches, OFFLINE_PAGE, 0);
    ActivatedLookupIsCurrentOnly(s, OFFLINE_PAGE);
  }

  /** A fetch creates no generation other than the current one. */
  lemma FetchKeepsGenerations(s: Store, req: Request, net: Network)
    ensures AfterFetch(s, req, net).caches.Keys <= s.caches.Keys + {CACHE_NAME}
  {
  }

  // ------------------------------------------------------------- activate

  /** After activate only the current generation may remain, with its
      contents unchanged. */
  lemma ActivateKeepsOnlyCurrent(s: Store)
    requires s.Valid()
    ensures var s' := Activated(s);
      && s'.Valid()
      && s'.names == (if CACHE_NAME in s.caches then [CACHE_NAME] else [])
      && s'.caches.Keys <= {CACHE_NAME}
      && (CACHE_NAME in s.caches ==> s'.caches[CACHE_NAME] == s.caches[CACHE_NAME])
  {
    WithoutAllBut(s.names, s.caches.Keys - {CACHE_NAME}, CACHE_NAME);
  }

  /** Activating twice is activating once. */
  lemma ActivateIdempotent(s: Store)
    ensures Activated(Activated(s)) == Activated(s)
  {
    var s' := Activated(s);
    assert s'.caches.Keys - {CACHE_NAME} == {};
    WithoutAbsent(s'.names, {});
    assert s'.caches - {} == s'.caches;
  }

  /** After activate a lookup sees the current generation only. */
  lemma ActivatedLookupIsCurrentOnly(s: Store, url: Url)
    requires s.Valid()
    ensures Activated(s).Match(url) ==
      if Holds(s.caches, CACHE_NAME, url) then Some(s.caches[CACHE_NAME][url]) else None
  {
    ActivateKeepsOnlyCurrent(s);
  }

  // -------------------------------------------------------------- install

  /** Install when every asset fetch succeeds: the current generation exists
      and holds every asset, as fetched; its other entries and every other
      cache are untouched. */
  lemma InstallSucceeds(s: Store, net: Network)
    requires s.Valid()
    requires forall u :: u in ASSETS ==> Succeeds(net(u))
    ensures var s' := Installed(s, net);
      && s'.Valid()
      && s'.caches.Keys == s.caches.Keys + {CACHE_NAME}
      && (forall u :: u in ASSETS ==> u in s'.caches[CACHE_NAME] && net(u) == Some(s'.caches[CACHE_NAME][u]))
      && (forall u :: u in s'.caches[CACHE_NAME] <==> u in ASSETS || Holds(s.caches, CACHE_NAME, u))
      && (forall u :: u !in ASSETS && Holds(s.caches, CACHE_NAME, u) ==>
            s'.caches[CACHE_NAME][u] == s.caches[CACHE_NAME][u])
      && (forall n :: n in s.caches && n != CACHE_NAME ==> s'.caches[n] == s.caches[n])
  {
  }

  /** Install when some asset fetch fails: nothing of the batch is stored;
      the current generation exists (open created it if need be) with its
      previous contents, and every other cache is untouched. */
  lemma InstallFails(s: Store, net: Network)
    requires exists u :: u in ASSETS && !Succeeds(net(u))
    ensures var s' := Installed(s, net);
      && s' == s.Open(CACHE_NAME)
      && s'.caches[CACHE_NAME] == (if CACHE_NAME in s.caches then s.caches[CACHE_NAME] else map[])
      && s'.caches.Keys == s.caches.Keys + {CACHE_NAME}
      && (forall n :: n in s.caches && n != CACHE_NAME ==> s'.caches[n] == s.caches[n])
  {
  }

  /** Installing twice against the same network is installing once. */
  lemma InstallIdempotent(s: Store, net: Network)
    ensures Installed(Installed(s, net), net) == Installed(s, net)
  {
    var withCurrent := s.Open(CACHE_NAME);
    match FetchAll(ASSETS, net)
    case None =>
    case Some(batch) =>
      PutAllTwice(withCurrent, CACHE_NAME, batch);
  }

  /** Storing the same batch twice stores it once. */
  lemma PutAllTwice(s: Store, name: CacheName, batch: Cache)
    requires name in s.caches
    ensures s.PutAll(name, batch).PutAll(name, batch) == s.PutAll(name, batch)
  {
    var c := s.caches[name];
    assert c + batch + batch == c + batch;
  }

  /** After a successful install and activate, every asset is served from
      the cache, as fetched at install time, without the network. */
  lemma InstalledAssetsServed(s: Store, net: Network, u: Url, later: Network)
    requires s.Valid()
    requires forall a :: a in ASSETS ==> Succeeds(net(a))
    requires u in ASSETS
    ensures Decide(Activated(Installed(s, net)), Request("GET", u), later) == FromCache(net(u).value)
  {
    InstallSucceeds(s, net);
    ActivatedLookupIsCurrentOnly(Installed(s, net), u);
  }

  /** After a successful install and activate, with the network down, a GET
      is always answered: from the cache, or with the offline page. */
  lemma InstalledShellOffline(s: Store, net: Network, req: Request, down: Network)
    requires s.Valid()
    requires forall a :: a in ASSETS ==> Succeeds(net(a))
    requires req.verb == "GET" && down(req.url).None?
    ensures var o := Decide(Activated(Installed(s, net)), req, down);
      o.FromCache? || o == Fallback(Some(net(OFFLINE_PAGE).value))
  {
    InstallSucceeds(s, net);
    ActivatedLookupIsCurrentOnly(Installed(s, net), req.url);
    ActivatedLookupIsCurrentOnly(Installed(s, net), OFFLINE_PAGE);
  }
}
