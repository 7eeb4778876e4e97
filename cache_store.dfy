/**
 * The browser's Cache Storage as the service worker sees it: an ordered
 * collection of named caches (cache generations), each a table from request
 * URL to stored response.  Requests are keyed by their URL string alone.
 *
 * `Store` is the value of the whole storage at one instant; the operations
 * the worker uses (open, keys, delete, match, put, addAll) are functions on
 * it.  `CacheStorage` is the mutable object the worker's handlers update in
 * place; each of its methods is specified by the corresponding function.
 */
module CacheStore {
  import opened Wrappers

  type Url = string
  type CacheName = string

  /** A stored or fetched HTTP response: its status and its body bytes. */
  datatype Response = Response(status: int, body: seq<bv8>)

  /** One cache generation: request URL to response. */
  type Cache = map<Url, Response>

  /** The network, as an oracle: a response for the URL, or a failure. */
  type Network = Url -> Option<Response>

  /** An "ok status" in the sense of the Fetch standard. */
  predicate IsOkStatus(status: int) {
    200 <= status <= 299
  }

  /** A fetch that the Cache API's addAll accepts: it produced a response,
      and that response has an ok status other than 206 (partial content). */
  predicate Succeeds(r: Option<Response>) {
    r.Some? && IsOkStatus(r.value.status) && r.value.status != 206
  }

  /** A response that cache.put stores: anything but a partial (206)
      response, which the Cache API rejects. */
  predicate PutAccepts(resp: Response) {
    resp.status != 206
  }

  predicate Distinct(names: seq<CacheName>) {
    forall i, j :: 0 <= i < j < |names| ==> names[i] != names[j]
  }

  /** The cache called `name` exists and has an entry for `url`. */
  predicate Holds(caches: map<CacheName, Cache>, name: CacheName, url: Url) {
    name in caches && url in caches[name]
  }

  /** Cross-generation lookup: the entry for `url` in the first cache, in
      the order `names`, that has one. */
  function MatchIn(names: seq<CacheName>, caches: map<CacheName, Cache>, url: Url): (r: Option<Response>)
    ensures r.Some? <==> exists i :: 0 <= i < |names| && Holds(caches, names[i], url)
    ensures r.Some? ==>
      exists i :: 0 <= i < |names| && Holds(caches, names[i], url) && r.value == caches[names[i]][url]
        && forall j :: 0 <= j < i ==> !Holds(caches, names[j], url)
  {
    if names == [] then None
    else if Holds(caches, names[0], url) then Some(caches[names[0]][url])
    else
      var r := MatchIn(names[1..], caches, url);
      assert forall i :: 0 < i < |names| ==> names[i] == names[1..][i - 1];
      r
  }

  /** `names` with every name in `dead` removed, order kept. */
  function Without(names: seq<CacheName>, dead: set<CacheName>): (r: seq<CacheName>)
    ensures forall x :: x in r <==> x in names && x !in dead
    ensures Distinct(names) ==> Distinct(r)
    ensures SubsequenceOf(r, names)
  {
    if names == [] then []
    else if names[0] in dead then Without(names[1..], dead)
    else [names[0]] + Without(names[1..], dead)
  }

  /** `sub` is `s` with some elements left out, the rest in their order. */
  ghost predicate SubsequenceOf(sub: seq<CacheName>, s: seq<CacheName>)
    decreases |s|
  {
    if sub == [] then true
    else if s == [] then false
    else if sub[0] == s[0] then SubsequenceOf(sub[1..], s[1..])
    else SubsequenceOf(sub, s[1..])
  }

  /** Fetches every URL of a batch; the batch succeeds only when every fetch
      does, and then yields one entry per URL. */
  function FetchAll(urls: seq<Url>, net: Network): (r: Option<Cache>)
    ensures r.Some? <==> forall u :: u in urls ==> Succeeds(net(u))
    ensures r.Some? ==> r.value.Keys == set u | u in urls
    ensures r.Some? ==> forall u :: u in r.value ==> net(u) == Some(r.value[u])
  {
    if urls == [] then Some(map[])
    else
      var head := net(urls[0]);
      if !Succeeds(head) then None
      else match FetchAll(urls[1..], net)
        case None => None
        case Some(rest) => Some(rest[urls[0] := head.value])
  }

  /** The whole Cache Storage: cache names in creation order, and the caches. */
  datatype Store = Store(names: seq<CacheName>, caches: map<CacheName, Cache>) {

    /** Every cache is listed exactly once. */
    ghost predicate Valid() {
      Distinct(names) && forall n :: n in names <==> n in caches
    }

    /** caches.match: the first cache, in creation order, with an entry. */
    function Match(url: Url): Option<Response> {
      MatchIn(names, caches, url)
    }

    /** caches.open: the cache called `name`, created empty if absent. */
    function Open(name: CacheName): (s: Store)
      ensures Valid() ==> s.Valid()
      ensures name in s.caches
      ensures name in caches ==> s == this
      ensures name !in caches ==> s.caches[name] == map[] && s.names == names + [name]
      ensures s.caches.Keys == caches.Keys + {name}
      ensures forall n :: n in caches ==> s.caches[n] == caches[n]
    {
      if name in caches then this else Store(names + [name], caches[name := map[]])
    }

    /** cache.put: overwrite the entry for `url` in the cache `name`. */
    function Put(name: CacheName, url: Url, resp: Response): (s: Store)
      requires name in caches
      ensures Valid() ==> s.Valid()
      ensures s.names == names && s.caches.Keys == caches.Keys
      ensures s.caches[name].Keys == caches[name].Keys + {url}
      ensures s.caches[name][url] == resp
      ensures forall u :: u in caches[name] && u != url ==> s.caches[name][u] == caches[name][u]
      ensures forall n :: n in caches && n != name ==> s.caches[n] == caches[n]
    {
      Store(names, caches[name := caches[name][url := resp]])
    }

    /** The store step of cache.addAll: the batch entries overwrite those of
        the cache `name`. */
    function PutAll(name: CacheName, batch: Cache): (s: Store)
      requires name in caches
      ensures Valid() ==> s.Valid()
      ensures s.names == names && s.caches.Keys == caches.Keys
      ensures s.caches[name].Keys == caches[name].Keys + batch.Keys
      ensures forall u :: u in batch ==> s.caches[name][u] == batch[u]
      ensures forall u :: u in caches[name] && u !in batch ==> s.caches[name][u] == caches[name][u]
      ensures forall n :: n in caches && n != name ==> s.caches[n] == caches[n]
    {
      Store(names, caches[name := caches[name] + batch])
    }

    /** caches.delete: remove the cache `name` and its listing. */
    function Delete(name: CacheName): (s: Store)
      ensures Valid() ==> s.Valid()
      ensures name !in s.caches && name !in s.names
      ensures SubsequenceOf(s.names, names)
      ensures s.caches.Keys == caches.Keys - {name}
      ensures forall n :: n in s.caches ==> s.caches[n] == caches[n]
    {
      Store(Without(names, {name}), caches - {name})
    }

    /** The store once every cache not called `keep` has been deleted. */
    function Retain(keep: CacheName): (s: Store)
      ensures Valid() ==> s.Valid()
      ensures SubsequenceOf(s.names, names)
      ensures s.caches.Keys == caches.Keys * {keep}
      ensures forall n :: n in s.caches ==> s.caches[n] == caches[n]
    {
      Store(Without(names, caches.Keys - {keep}), caches - (caches.Keys - {keep}))
    }
  }

  /** The lookup answers from the earliest cache that holds the URL. */
  lemma {:induction false} MatchFirstHolder(names: seq<CacheName>, caches: map<CacheName, Cache>, url: Url, i: nat)
    requires i < |names| && Holds(caches, names[i], url)
    requires forall j :: 0 <= j < i ==> !Holds(caches, names[j], url)
    ensures MatchIn(names, caches, url) == Some(caches[names[i]][url])
  {
    if i > 0 {
      assert !Holds(caches, names[0], url);
      MatchFirstHolder(names[1..], caches, url, i - 1);
    }
  }

  /** When a single listed cache holds the URL, the lookup answers from it,
      wherever it stands in the order. */
  lemma MatchSoleHolder(names: seq<CacheName>, caches: map<CacheName, Cache>, url: Url, name: CacheName)
    requires Distinct(names) && name in names && Holds(caches, name, url)
    requires forall n :: n != name ==> !Holds(caches, n, url)
    ensures MatchIn(names, caches, url) == Some(caches[name][url])
  {
    var i :| 0 <= i < |names| && names[i] == name;
    MatchFirstHolder(names, caches, url, i);
  }

  /** Deleting caches that do not hold `url` does not change which cache
      answers the lookup of `url`: the remaining caches keep their order. */
  lemma {:induction false} MatchWithout(names: seq<CacheName>, caches: map<CacheName, Cache>, dead: set<CacheName>, url: Url)
    requires forall d :: d in dead ==> !Holds(caches, d, url)
    ensures MatchIn(Without(names, dead), caches - dead, url) == MatchIn(names, caches, url)
  {
    if names != [] {
      MatchWithout(names[1..], caches, dead, url);
      if names[0] !in dead {
        assert Holds(caches - dead, names[0], url) == Holds(caches, names[0], url);
        assert ([names[0]] + Without(names[1..], dead))[1..] == Without(names[1..], dead);
      }
    }
  }

  /** Deleting a cache that does not hold `url` leaves its lookup unchanged. */
  lemma DeleteKeepsLookup(s: Store, name: CacheName, url: Url)
    requires !Holds(s.caches, name, url)
    ensures s.Delete(name).Match(url) == s.Match(url)
  {
    MatchWithout(s.names, s.caches, {name}, url);
  }

  /** Opening a cache that does not exist yet leaves every lookup unchanged:
      the new cache is empty and comes last. */
  lemma OpenKeepsLookup(s: Store, name: CacheName, url: Url)
    ensures s.Open(name).Match(url) == s.Match(url)
  {
    if name !in s.caches {
      MatchAppendEmpty(s.names, s.caches, name, url);
    }
  }

  /** Listing a new, empty cache last changes no lookup. */
  lemma {:induction false} MatchAppendEmpty(names: seq<CacheName>, caches: map<CacheName, Cache>, name: CacheName, url: Url)
    requires name !in caches
    ensures MatchIn(names + [name], caches[name := map[]], url) == MatchIn(names, caches, url)
  {
    if names != [] {
      assert (names + [name])[1..] == names[1..] + [name];
      MatchAppendEmpty(names[1..], caches, name, url);
    }
  }

  /** Removing one set of names and then another removes their union. */
  lemma {:induction false} WithoutWithout(names: seq<CacheName>, a: set<CacheName>, b: set<CacheName>)
    ensures Without(Without(names, a), b) == Without(names, a + b)
  {
    if names != [] {
      WithoutWithout(names[1..], a, b);
    }
  }

  /** Removing names none of which occur changes nothing. */
  lemma {:induction false} WithoutAbsent(names: seq<CacheName>, dead: set<CacheName>)
    requires forall x :: x in names ==> x !in dead
    ensures Without(names, dead) == names
  {
    if names != [] {
      WithoutAbsent(names[1..], dead);
      assert names == [names[0]] + names[1..];
    }
  }

  /** With distinct names, keeping a single one leaves that name alone, or
      nothing when it is not listed. */
  lemma {:induction false} WithoutAllBut(names: seq<CacheName>, dead: set<CacheName>, keep: CacheName)
    requires Distinct(names)
    requires forall x :: x in names ==> (x in dead <==> x != keep)
    ensures Without(names, dead) == if keep in names then [keep] else []
  {
    if names != [] {
      WithoutAllBut(names[1..], dead, keep);
      if names[0] == keep {
        assert keep !in names[1..] by {
          forall i | 0 <= i < |names[1..]| ensures names[1..][i] != keep {
            assert names[1..][i] == names[i + 1];
          }
        }
      } else {
        assert keep in names <==> keep in names[1..];
      }
    }
  }

  /**
   * The Cache Storage object that the worker's handlers share and update in
   * place.  `names` lists the caches in creation order (the order of
   * caches.keys() and of the search made by caches.match).
   */
  class CacheStorage {
    var names: seq<CacheName>
    var caches: map<CacheName, Cache>

    function Snapshot(): Store
      reads this
    {
      Store(names, caches)
    }

    ghost predicate Valid()
      reads this
    {
      Snapshot().Valid()
    }

    constructor ()
      ensures Valid() && Snapshot() == Store([], map[])
    {
      names := [];
      caches := map[];
    }

    /** caches.keys() */
    method Keys() returns (ks: seq<CacheName>)
      ensures ks == Snapshot().names
    {
      ks := names;
    }

    /** caches.match(url) */
    method Match(url: Url) returns (r: Option<Response>)
      ensures r == Snapshot().Match(url)
    {
      r := MatchIn(names, caches, url);
    }

    /** caches.open(name) */
    method Open(name: CacheName)
      modifies this
      ensures Snapshot() == old(Snapshot()).Open(name)
    {
      if name !in caches {
        names := names + [name];
        caches := caches[name := map[]];
      }
    }

    /** cache.put(url, resp) on the cache `name` obtained from open;
        `stored` is false when the put rejects and nothing is stored. */
    method Put(name: CacheName, url: Url, resp: Response) returns (stored: bool)
      requires name in caches
      modifies this
      ensures stored <==> PutAccepts(resp)
      ensures Snapshot() == if stored then old(Snapshot()).Put(name, url, resp) else old(Snapshot())
    {
      stored := PutAccepts(resp);
      if stored {
        caches := caches[name := caches[name][url := resp]];
      }
    }

    /** cache.addAll(urls) on the cache `name` obtained from open: every URL
        is fetched first, and only when all succeed are the responses
        stored; otherwise the call rejects and nothing is stored. */
    method AddAll(name: CacheName, urls: seq<Url>, net: Network) returns (ok: bool)
      requires name in caches
      modifies this
      ensures ok <==> forall u :: u in urls ==> Succeeds(net(u))
      ensures Snapshot() == if ok then old(Snapshot()).PutAll(name, FetchAll(urls, net).value)
                            else old(Snapshot())
    {
      var batch := FetchAll(urls, net);
      ok := batch.Some?;
      if ok {
        caches := caches[name := caches[name] + batch.value];
      }
    }

    /** caches.delete(name); resolves to whether the cache existed. */
    method Delete(name: CacheName) returns (existed: bool)
      modifies this
      ensures existed == (name in old(caches))
      ensures Snapshot() == old(Snapshot()).Delete(name)
    {
      existed := name in caches;
      names := Without(names, {name});
      caches := caches - {name};
    }
  }
}
