/** The cache generations of frontend/public/sw.js.

    The worker keeps responses in named caches ("generations"). Install
    pre-fills the current generation with a fixed list of paths, the
    effective fetch listener goes to the network first and falls back to the
    caches, and activate deletes every generation but the current one.

    The network is an input: `Some(response)` when fetch() resolves (whatever
    the HTTP status), `None` when it rejects. The non-awaited cache writes
    are applied at once, as one step.
 */
module ServiceWorker {
  import opened Wrappers

  /** The current generation. */
  const CacheName := "cloudtripwire-v1"

  /** The install-time manifest, as paths below the worker's origin. */
  const UrlsToCache := ["/", "/index.html", "/src/main.jsx", "/src/App.jsx"]

  datatype Request = Request(verb: string, url: string)

  /** `kind` is the response type ("basic", "cors", "opaque", ...). */
  datatype Response = Response(status: int, kind: string, body: string)

  type Entries = map<Request, Response>

  /** CacheStorage: the caches by name, and their names in creation order
      (the order caches.keys() lists and caches.match searches). */
  datatype Storage = Storage(order: seq<string>, caches: map<string, Entries>)

  predicate Distinct(names: seq<string>)
  {
    forall i, j :: 0 <= i < j < |names| ==> names[i] != names[j]
  }

  predicate Valid(st: Storage)
  {
    Distinct(st.order) && st.caches.Keys == set n | n in st.order
  }

  function StartsWith(s: string, prefix: string): bool
  {
    |prefix| <= |s| && s[..|prefix|] == prefix
  }

  predicate IsHttpUrl(url: string)
  {
    StartsWith(url, "http:") || StartsWith(url, "https:")
  }

  // ---------------------------------------------------------------------
  // Cache API primitives

  /** caches.open(name): the named cache, created empty and placed last when
      it does not exist yet. */
  function Open(st: Storage, name: string): (st': Storage)
    ensures name in st'.caches
    ensures name in st.caches ==> st' == st
    ensures st'.caches.Keys == st.caches.Keys + {name}
    ensures forall n :: n in st.caches ==> st'.caches[n] == st.caches[n]
    ensures name !in st.caches ==> st'.caches[name] == map[]
    ensures name !in st.caches ==> st'.order == st.order + [name]
    ensures Valid(st) ==> Valid(st')
  {
    if name in st.caches then st
    else Storage(st.order + [name], st.caches[name := map[]])
  }

  /** Whether cache.put accepts the pair: it refuses a request that is not a
      GET or not http(s), and a 206 partial response. Any other status is
      stored, error statuses and opaque responses included. */
  predicate PutAccepted(req: Request, resp: Response)
  {
    req.verb == "GET" && IsHttpUrl(req.url) && resp.status != 206
  }

  /** cache.put(req, resp) on an existing cache; a refused put rejects a
      promise nobody awaits, so it leaves the storage as it was. */
  function Put(st: Storage, name: string, req: Request, resp: Response): (st': Storage)
    requires name in st.caches
    ensures st'.order == st.order && st'.caches.Keys == st.caches.Keys
    ensures forall n :: n in st.caches && n != name ==> st'.caches[n] == st.caches[n]
    ensures PutAccepted(req, resp) ==> st'.caches[name] == st.caches[name][req := resp]
    ensures !PutAccepted(req, resp) ==> st' == st
  {
    if PutAccepted(req, resp) then st.(caches := st.caches[name := st.caches[name][req := resp]])
    else st
  }

  predicate Holds(caches: map<string, Entries>, name: string, req: Request)
  {
    name in caches && req in caches[name]
  }

  /** Position i of `order` is the first generation that holds `req`. */
  predicate FirstHolder(order: seq<string>, caches: map<string, Entries>, req: Request, i: int)
  {
    && 0 <= i < |order| && Holds(caches, order[i], req)
    && forall j :: 0 <= j < i ==> !Holds(caches, order[j], req)
  }

  /** The first cache, in creation order, that holds `req`, starting at `order`. */
  function MatchIn(order: seq<string>, caches: map<string, Entries>, req: Request): (r: Option<Response>)
    ensures r.Some? ==> exists i :: FirstHolder(order, caches, req, i) && caches[order[i]][req] == r.value
    ensures r.None? <==> forall n :: n in order ==> !Holds(caches, n, req)
  {
    if order == [] then None
    else if Holds(caches, order[0], req) then
      assert FirstHolder(order, caches, req, 0);
      Some(caches[order[0]][req])
    else
      var r := MatchIn(order[1..], caches, req);
      assert forall n :: n in order ==> n == order[0] || n in order[1..];
      if r.Some? then
        var i :| FirstHolder(order[1..], caches, req, i) && caches[order[1..][i]][req] == r.value;
        assert FirstHolder(order, caches, req, i + 1);
        r
      else r
  }

  /** caches.match(req): only GET requests match, and among the generations
      holding the request the oldest one, in creation order, answers. */
  function Match(st: Storage, req: Request): (r: Option<Response>)
    ensures Valid(st) && req.verb == "GET" ==>
      (r.Some? <==> exists n :: n in st.caches && req in st.caches[n])
    ensures r.Some? ==> req.verb == "GET" && exists n :: n in st.caches && req in st.caches[n] && st.caches[n][req] == r.value
    ensures r.Some? ==> exists i :: FirstHolder(st.order, st.caches, req, i) && st.caches[st.order[i]][req] == r.value
  {
    if req.verb != "GET" then None else MatchIn(st.order, st.caches, req)
  }

  // ---------------------------------------------------------------------
  // install

  function ManifestRequest(origin: string, path: string): Request
  {
    Request("GET", origin + path)
  }

  /** What cache.addAll accepts from the network for one request: a
      response, with a 2xx status other than 206, for an http(s) URL. */
  predicate AddAllAccepts(req: Request, network: Request -> Option<Response>)
  {
    && IsHttpUrl(req.url)
    && network(req).Some?
    && 200 <= network(req).value.status <= 299
    && network(req).value.status != 206
  }

  predicate ManifestFetched(origin: string, network: Request -> Option<Response>)
  {
    forall i :: 0 <= i < |UrlsToCache| ==> AddAllAccepts(ManifestRequest(origin, UrlsToCache[i]), network)
  }

  /** The requests cache.addAll(urlsToCache) sends from `origin`. */
  function ManifestRequests(origin: string): set<Request>
  {
    set i | 0 <= i < |UrlsToCache| :: ManifestRequest(origin, UrlsToCache[i])
  }

  /** The install listener, for a worker served from `origin`: opens the
      current generation, then adds every manifest path or none of them.
      Returns the storage and whether installation succeeded. */
  function Install(st: Storage, origin: string, network: Request -> Option<Response>): (r: (Storage, bool))
    ensures r.1 <==> ManifestFetched(origin, network)
    ensures CacheName in r.0.caches && r.0.caches.Keys == st.caches.Keys + {CacheName}
    ensures forall n :: n in st.caches && n != CacheName ==> r.0.caches[n] == st.caches[n]
    ensures r.1 ==> forall i :: 0 <= i < |UrlsToCache| ==>
      && ManifestRequest(origin, UrlsToCache[i]) in r.0.caches[CacheName]
      && Some(r.0.caches[CacheName][ManifestRequest(origin, UrlsToCache[i])]) == network(ManifestRequest(origin, UrlsToCache[i]))
    ensures !r.1 ==> r.0 == Open(st, CacheName)
    ensures r.0.order == Open(st, CacheName).order
    ensures CacheName in st.caches ==> forall k :: k in st.caches[CacheName] ==> k in r.0.caches[CacheName]
    ensures forall k :: k in r.0.caches[CacheName] && k !in ManifestRequests(origin) ==>
      CacheName in st.caches && k in st.caches[CacheName] && r.0.caches[CacheName][k] == st.caches[CacheName][k]
    ensures Valid(st) ==> Valid(r.0)
  {
    var withCurrent := Open(st, CacheName);
    if ManifestFetched(origin, network) then
      var fetched := map req | req in ManifestRequests(origin) :: network(req).value;
      var filled := withCurrent.caches[CacheName] + fetched;
      (withCurrent.(caches := withCurrent.caches[CacheName := filled]), true)
    else (withCurrent, false)
  }

  // ---------------------------------------------------------------------
  // fetch (the first listener, which answers every request)

  /** Network first: a network response is returned as is and a copy is put
      in the current generation; when the network fails, the first cached
      match of any generation is returned, or nothing (a network error for
      the page). */
  function Fetch(st: Storage, req: Request, network: Option<Response>): (r: (Option<Response>, Storage))
    ensures network.Some? ==> r.0 == network
    ensures network.None? ==> r.0 == Match(st, req) && r.1 == st
    ensures network.Some? ==> CacheName in r.1.caches && r.1.caches.Keys == st.caches.Keys + {CacheName}
    ensures forall n :: n in st.caches && n != CacheName ==> r.1.caches[n] == st.caches[n]
    ensures network.Some? && PutAccepted(req, network.value) ==>
      req in r.1.caches[CacheName] && r.1.caches[CacheName][req] == network.value
    ensures network.Some? && PutAccepted(req, network.value) ==>
      forall k :: k in r.1.caches[CacheName] && k != req ==>
        CacheName in st.caches && k in st.caches[CacheName] && r.1.caches[CacheName][k] == st.caches[CacheName][k]
    ensures network.Some? && CacheName in st.caches ==>
      forall k :: k in st.caches[CacheName] && k != req ==>
        k in r.1.caches[CacheName] && r.1.caches[CacheName][k] == st.caches[CacheName][k]
    ensures network.Some? && !PutAccepted(req, network.value) ==> r.1 == Open(st, CacheName)
    ensures network.Some? ==> r.1.order == Open(st, CacheName).order
    ensures Valid(st) ==> Valid(r.1)
  {
    match network
    case Some(resp) => (Some(resp), Put(Open(st, CacheName), CacheName, req, resp))
    case None => (Match(st, req), st)
  }

  /** The first listener caches whatever status the network answers with:
      a 404, a 500 or an opaque response to an http(s) GET is stored. */
  lemma FetchCachesAnyStatus(st: Storage, req: Request, resp: Response)
    requires req.verb == "GET" && IsHttpUrl(req.url) && resp.status != 206
    ensures Fetch(st, req, Some(resp)).1.caches[CacheName][req] == resp
  {
  }

  /** The second fetch listener handles only URLs that start with "http". */
  predicate SecondListenerHandles(url: string)
  {
    StartsWith(url, "http")
  }

  /** The second listener's guard is looser than an http(s) check: every
      http(s) URL passes it, and so does a URL such as "httpx:" that does
      not have an http(s) scheme. */
  lemma SecondListenerGuard(url: string)
    ensures IsHttpUrl(url) ==> SecondListenerHandles(url)
    ensures SecondListenerHandles("httpx:/a") && !IsHttpUrl("httpx:/a")
    ensures !SecondListenerHandles("chrome-extension://a") && !SecondListenerHandles("data:,a")
  {
    if IsHttpUrl(url) {
      assert url[..4] == "http" by {
        if StartsWith(url, "http:") {
          assert url[..4] == url[..5][..4];
        } else {
          assert url[..4] == url[..6][..4];
        }
      }
    }
    assert "httpx:/a"[..5][4] == 'x' && "http:"[4] == ':';
    assert "httpx:/a"[..6][4] == 'x' && "https:"[4] == 's';
    assert "chrome-extension://a"[0] != 'h';
    assert "data:,a"[0] != 'h';
  }

  // ---------------------------------------------------------------------
  // activate

  /** The names that survive activation, in their order. */
  function Keep(order: seq<string>): (kept: seq<string>)
    ensures forall n :: n in kept <==> n in order && n == CacheName
    ensures Distinct(order) ==> Distinct(kept)
  {
    if order == [] then []
    else if order[0] == CacheName then
      assert Distinct(order) ==> order[0] !in order[1..];
      [order[0]] + Keep(order[1..])
    else Keep(order[1..])
  }

  /** The activate listener: deletes every generation whose name is not the
      current one. The current generation, if any, keeps all its entries. */
  function Activate(st: Storage): (st': Storage)
    ensures st'.caches.Keys <= {CacheName}
    ensures CacheName in st'.caches <==> CacheName in st.caches
    ensures CacheName in st.caches ==> st'.caches[CacheName] == st.caches[CacheName]
    ensures Valid(st) ==> Valid(st')
  {
    Storage(Keep(st.order), map n | n in st.caches && n == CacheName :: st.caches[n])
  }

  lemma {:induction false} KeepIdempotent(order: seq<string>)
    ensures Keep(Keep(order)) == Keep(order)
    decreases |order|
  {
    if order != [] {
      KeepIdempotent(order[1..]);
      if order[0] == CacheName {
        assert Keep(order) == [order[0]] + Keep(order[1..]);
        assert ([order[0]] + Keep(order[1..]))[1..] == Keep(order[1..]);
      }
    }
  }

  /** Activating twice leaves the storage as activating once. */
  lemma ActivateIdempotent(st: Storage)
    ensures Activate(Activate(st)) == Activate(st)
  {
    KeepIdempotent(st.order);
  }

  /** After activation a lookup finds exactly what the current generation
      holds: older generations no longer answer. */
  lemma MatchAfterActivate(st: Storage, req: Request)
    requires Valid(st)
    ensures Match(Activate(st), req) ==
      if req.verb == "GET" && CacheName in st.caches && req in st.caches[CacheName]
      then Some(st.caches[CacheName][req]) else None
  {
    var a := Activate(st);
    if req.verb == "GET" && CacheName in st.caches && req in st.caches[CacheName] {
      var r := Match(a, req);
      assert r.Some?;
    }
  }

  // ---------------------------------------------------------------------
  // Scenarios across listeners

  /** Install then activate: every manifest path can be served offline. */
  lemma InstallThenActivateServesManifest(st: Storage, origin: string, network: Request -> Option<Response>, i: nat)
    requires Valid(st) && i < |UrlsToCache|
    requires Install(st, origin, network).1
    ensures Match(Activate(Install(st, origin, network).0), ManifestRequest(origin, UrlsToCache[i])).Some?
  {
    var installed := Install(st, origin, network).0;
    MatchAfterActivate(installed, ManifestRequest(origin, UrlsToCache[i]));
  }

  /** Once only the current generation remains, a response fetched online is
      what a later offline fetch of the same request returns. */
  lemma OfflineServesLastOnline(st: Storage, req: Request, resp: Response)
    requires Valid(st) && st.caches.Keys <= {CacheName}
    requires PutAccepted(req, resp)
    ensures var online := Fetch(st, req, Some(resp)).1;
      Fetch(online, req, None).0 == Some(resp)
  {
    var online := Fetch(st, req, Some(resp)).1;
    assert online.caches.Keys == {CacheName};
  }
}
