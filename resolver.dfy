/**
  The custom-tab browser resolver of the BrowserTab Cordova plugin
  (src/android/BrowserTab.java, findCustomTabBrowser, isFullBrowser and
  hasCustomTabWarmupService).

  The package-manager query is an input: the list of handlers that resolve a
  generic web VIEW intent, in the order the package manager returns them.
  Each handler carries the intent filter it matched with and the answer of the
  warmup-service probe for its package.
*/
module Resolver {
  import opened Wrappers

  /** One resolved handler. `schemes` and `authorities` are None when the
      filter's iterator is null, i.e. the filter declares no scheme
      (authority) at all. */
  datatype Candidate = Candidate(
    packageName: string,
    hasViewAction: bool,
    hasBrowsableCategory: bool,
    schemes: Option<seq<string>>,
    authorities: Option<seq<string>>,
    hasWarmupService: bool)

  /** The full-browser filter: a VIEW, BROWSABLE filter that declares schemes,
      including both "http" and "https", and no authority restriction. */
  predicate FullBrowser(info: Candidate) {
    && info.hasViewAction
    && info.hasBrowsableCategory
    && info.schemes.Some?
    && info.authorities.None?
    && "http" in info.schemes.value
    && "https" in info.schemes.value
  }

  /** isFullBrowser: the guard checks, then one pass over the declared schemes
      that stops as soon as both web schemes have been seen. */
  method IsFullBrowser(info: Candidate) returns (full: bool)
    ensures full <==> FullBrowser(info)
  {
    if !info.hasViewAction || !info.hasBrowsableCategory || info.schemes.None? {
      return false;
    }
    if info.authorities.Some? {
      return false;
    }
    var schemes := info.schemes.value;
    var supportsHttp, supportsHttps := false, false;
    var k := 0;
    while k < |schemes|
      invariant 0 <= k <= |schemes|
      invariant supportsHttp <==> "http" in schemes[..k]
      invariant supportsHttps <==> "https" in schemes[..k]
      invariant !(supportsHttp && supportsHttps)
    {
      var scheme := schemes[k];
      assert schemes[..k + 1] == schemes[..k] + [scheme];
      supportsHttp := supportsHttp || scheme == "http";
      supportsHttps := supportsHttps || scheme == "https";
      if supportsHttp && supportsHttps {
        assert schemes[..k + 1] <= schemes;
        return true;
      }
      k := k + 1;
    }
    assert schemes[..k] == schemes;
    return false;
  }

  /** A handler the resolver accepts: a full browser whose package exposes the
      custom-tab warmup service. */
  predicate CanHostCustomTab(info: Candidate) {
    FullBrowser(info) && info.hasWarmupService
  }

  /** `candidates[i]` is the first handler, in list order, that can host a tab. */
  predicate IsFirstHost(candidates: seq<Candidate>, i: int) {
    && 0 <= i < |candidates|
    && CanHostCustomTab(candidates[i])
    && forall j | 0 <= j < i :: !CanHostCustomTab(candidates[j])
  }

  /** The answer of one uncached resolver run: the package of the first
      handler that can host a custom tab, or None. */
  function FirstHost(candidates: seq<Candidate>): (browser: Option<string>)
    ensures browser.None? <==> forall i | 0 <= i < |candidates| :: !CanHostCustomTab(candidates[i])
    ensures browser.Some? ==>
      exists i | IsFirstHost(candidates, i) :: candidates[i].packageName == browser.value
  {
    if |candidates| == 0 then None
    else if CanHostCustomTab(candidates[0]) then
      assert IsFirstHost(candidates, 0);
      Some(candidates[0].packageName)
    else
      FirstHost(candidates[1..])
  }

  /** There is only one first host, and FirstHost names it. */
  lemma FirstHostIsFirst(candidates: seq<Candidate>, i: int)
    requires IsFirstHost(candidates, i)
    ensures FirstHost(candidates) == Some(candidates[i].packageName)
  {
  }

  /** Handlers that do not declare both "http" and "https" are never chosen:
      if no handler declares both, the resolver finds nothing. */
  lemma NoDualSchemeHandlerNoHost(candidates: seq<Candidate>)
    requires forall i | 0 <= i < |candidates| ::
      candidates[i].schemes.None? || !("http" in candidates[i].schemes.value && "https" in candidates[i].schemes.value)
    ensures FirstHost(candidates) == None
  {
  }

  /** The resolver's cache: mCustomTabsBrowser and mFindCalled. */
  datatype Cache = Cache(customTabsBrowser: Option<string>, findCalled: bool)

  /** The state of a freshly constructed plugin: nothing cached, never run. */
  const EmptyCache := Cache(None, false)

  /** What one call of findCustomTabBrowser returns and leaves cached. */
  datatype Lookup = Lookup(cache: Cache, browser: Option<string>)

  /** findCustomTabBrowser (newer version). Once it has run, the cached answer
      is returned whatever the candidates are. On a first run a hit overwrites
      the cached package; a miss leaves it as it was. */
  function Find(cache: Cache, candidates: seq<Candidate>): Lookup {
    if cache.findCalled then Lookup(cache, cache.customTabsBrowser)
    else
      var found := FirstHost(candidates);
      var browser := if found.Some? then found else cache.customTabsBrowser;
      Lookup(Cache(browser, true), browser)
  }

  /** A cache that has never run holds no package. */
  predicate CacheValid(cache: Cache) {
    !cache.findCalled ==> cache.customTabsBrowser.None?
  }

  /** Every call leaves the resolver marked as run, with the answer it
      returned cached, and keeps CacheValid. */
  lemma FindMarksRun(cache: Cache, candidates: seq<Candidate>)
    ensures Find(cache, candidates).cache.findCalled
    ensures Find(cache, candidates).cache.customTabsBrowser == Find(cache, candidates).browser
    ensures CacheValid(Find(cache, candidates).cache)
  {
  }

  /** The first run of a valid cache answers FirstHost of the candidates. */
  lemma FindFirstRun(cache: Cache, candidates: seq<Candidate>)
    requires CacheValid(cache) && !cache.findCalled
    ensures Find(cache, candidates).browser == FirstHost(candidates)
  {
  }

  /** Caching: after any call, every later call returns the same answer, a
      miss included, and changes nothing, whatever list it is given. */
  lemma FindIsCached(cache: Cache, first: seq<Candidate>, later: seq<Candidate>)
    ensures var l := Find(cache, first);
      Find(l.cache, later) == Lookup(l.cache, l.browser)
  {
  }

  /** The first handler, in list order, whose package exposes the warmup
      service; the older resolver applies no full-browser filter. */
  function FirstWithService(candidates: seq<Candidate>): (browser: Option<string>)
    ensures browser.None? <==> forall i | 0 <= i < |candidates| :: !candidates[i].hasWarmupService
    ensures browser.Some? ==>
      exists i | 0 <= i < |candidates| && candidates[i].hasWarmupService ::
        && candidates[i].packageName == browser.value
        && forall j | 0 <= j < i :: !candidates[j].hasWarmupService
  {
    if |candidates| == 0 then None
    else if candidates[0].hasWarmupService then Some(candidates[0].packageName)
    else FirstWithService(candidates[1..])
  }

  /** findCustomTabBrowser of the older version: the cache is the package
      alone and is consulted only when it is non-null, so a miss is not
      cached and the next call queries again. Returns (new cache, answer). */
  function LegacyFind(cached: Option<string>, candidates: seq<Candidate>): (Option<string>, Option<string>) {
    if cached.Some? then (cached, cached)
    else
      var found := FirstWithService(candidates);
      (found, found)
  }

  /** The two versions differ on a miss: after a first call that finds
      nothing, the newer resolver keeps answering None even when a capable
      browser is offered later, while the older one finds it. */
  lemma MissCachedOnlyByNewer(later: seq<Candidate>)
    requires exists i | 0 <= i < |later| :: CanHostCustomTab(later[i])
    ensures Find(Find(EmptyCache, []).cache, later).browser == None
    ensures LegacyFind(LegacyFind(None, []).0, later).1.Some?
  {
  }
}
