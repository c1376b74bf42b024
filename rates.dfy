/** The rate resolution engine of app/rates.py: currency-code normalisation,
    the retry window of date keys, the process-wide rate cache and the chain
    of four providers, each consulted in a fixed order for every date key.

    Providers are an oracle `fetch` from a request to an optional rate: the
    HTTP calls, JSON payloads and timeouts behind them are not modelled, only
    which request each provider receives. */
module Rates {
  import opened Wrappers
  import opened Text
  import opened Decimals

  /** The upstream rate sources, in the order the resolver consults them. */
  datatype Provider = Frankfurter | ExchangerateHost | Fawaz | Floatrates

  /** A cache date key: the sentinel "latest", or a calendar day counted in
      days (the program writes it as `day.isoformat()`, which is never
      "latest" and is injective, so the two forms never collide). */
  datatype DateKey = Latest | Day(day: int)

  type Key = (string, DateKey)

  /** The contents of `_CACHE`: (normalised code, date key) to the EUR value
      of one unit, at full precision. */
  type Cache = map<Key, real>

  /** One provider call: which provider, for which normalised code, and the
      date version it is asked for. */
  datatype Request = Request(provider: Provider, code: string, version: DateKey)

  /** The providers' answers: `None` is any soft miss (network error,
      non-success status, a payload without the rate field). */
  type Fetch = Request -> Option<real>

  /** The cache is shared mutable state that the resolver updates in place. */
  class RateCache {
    var entries: Cache

    constructor ()
      ensures entries == map[]
    {
      entries := map[];
    }
  }

  // ---- code normalisation ---------------------------------------------------

  /** `_normalize_code`: strip, upper-case, and read the USD-pegged stablecoin
      USDT as USD. The result is never the alias itself. */
  function NormalizeCode(code: string): (c: string)
    ensures c != "USDT"
  {
    var u := Upper(Strip(code));
    if u == "USDT" then "USD" else u
  }

  /** The normal code is a normal form: trimmed and free of lower-case ASCII
      letters. */
  lemma NormalForm(code: string)
    ensures Trimmed(NormalizeCode(code)) && NoLowerAscii(NormalizeCode(code))
  {
    StripTrimmed(code);
    UpperFacts(Strip(code));
    assert Trimmed("USD") && NoLowerAscii("USD");
  }

  lemma NormalizeIdempotent(code: string)
    ensures NormalizeCode(NormalizeCode(code)) == NormalizeCode(code)
  {
    var c := NormalizeCode(code);
    NormalForm(code);
    assert [] + c + [] == c;
    StripExactly([], c, []);
    UpperFacts(c);
  }

  /** Whitespace around a code does not change its cache key. */
  lemma NormalizeIgnoresPadding(p: string, code: string, q: string)
    requires AllSpace(p) && AllSpace(q)
    ensures NormalizeCode(p + code + q) == NormalizeCode(code)
  {
    StripPadded(p, code, q);
  }

  /** For a code with no surrounding whitespace, normalisation is the
      upper-casing and the alias rule alone. */
  lemma NormalizeTrimmed(code: string)
    requires Trimmed(code)
    ensures NormalizeCode(code) == if Upper(code) == "USDT" then "USD" else Upper(code)
  {
    assert [] + code + [] == code;
    StripExactly([], code, []);
  }

  lemma TrimmedExamples()
    ensures Trimmed("usdt") && Trimmed("USD") && Trimmed("eur") && Trimmed("USDT") && Trimmed("usd")
  {
  }

  lemma UpperExamples()
    ensures Upper("usdt") == "USDT" && Upper("USD") == "USD" && Upper("eur") == "EUR"
    ensures Upper("USDT") == "USDT" && Upper("usd") == "USD"
  {
  }

  /** "usdt", " USD " and "USD" share one cache key, and " eur" is EUR. */
  lemma NormalizeExamples()
    ensures NormalizeCode("usdt") == "USD"
    ensures NormalizeCode(" USD ") == "USD"
    ensures NormalizeCode("USD") == "USD"
    ensures NormalizeCode(" eur") == "EUR"
  {
    TrimmedExamples();
    UpperExamples();
    NormalizeTrimmed("usdt");
    NormalizeTrimmed("USD");
    NormalizeTrimmed("eur");
    assert " " + "USD" + " " == " USD ";
    NormalizeIgnoresPadding(" ", "USD", " ");
    assert " " + "eur" + [] == " eur";
    NormalizeIgnoresPadding(" ", "eur", []);
  }

  // ---- the retry window -----------------------------------------------------

  /** The date keys tried, in order: "latest" only when the day is today,
      then the day itself, then the five days before it. */
  function RetryKeys(day: int, today: int): (ks: seq<DateKey>)
    ensures |ks| == if day == today then 7 else 6
    ensures ks[0] == Latest <==> day == today
    ensures forall i :: 1 <= i < |ks| ==> ks[i] != Latest
    ensures forall i :: |ks| - 6 <= i < |ks| ==> ks[i] == Day(day + |ks| - 6 - i)
    ensures Latest !in ks ==> ks[0] == Day(day)
  {
    (if day == today then [Latest] else []) + seq(6, j => Day(day - j))
  }

  /** The append loop that builds `tries`. */
  method BuildTries(day: int, today: int) returns (tries: seq<DateKey>)
    ensures tries == RetryKeys(day, today)
  {
    tries := [];
    if day == today {
      tries := tries + [Latest];
    }
    tries := tries + [Day(day)];
    for i := 1 to 6
      invariant tries == (if day == today then [Latest] else []) + seq(i, j => Day(day - j))
    {
      tries := tries + [Day(day - i)];
    }
  }

  // ---- the provider chain ---------------------------------------------------

  /** The request a provider receives for a date key. Frankfurter and Fawaz
      take the key as it is ("latest" is a version both understand);
      exchangerate.host has no "latest" and is asked for today instead;
      Floatrates serves only its latest snapshot, whatever the key. */
  function Query(p: Provider, code: string, key: DateKey, today: int): (r: Request)
    ensures r.provider == p && r.code == code
    ensures p == Frankfurter || p == Fawaz ==> r.version == key
    ensures p == ExchangerateHost ==> r.version != Latest && (key != Latest ==> r.version == key)
    ensures p == ExchangerateHost && key == Latest ==> r.version == Day(today)
    ensures p == Floatrates ==> r.version == Latest
  {
    match p
    case ExchangerateHost => Request(p, code, if key == Latest then Day(today) else key)
    case Floatrates => Request(p, code, Latest)
    case _ => Request(p, code, key)
  }

  /** The four requests made for one date key, in the order they are made. */
  function Requests(code: string, key: DateKey, today: int): (qs: seq<Request>)
    ensures |qs| == 4
    ensures forall i :: 0 <= i < 4 ==> qs[i].code == code
    ensures qs[0].provider == Frankfurter && qs[1].provider == ExchangerateHost
    ensures qs[2].provider == Fawaz && qs[3].provider == Floatrates
  {
    [ Query(Frankfurter, code, key, today), Query(ExchangerateHost, code, key, today),
      Query(Fawaz, code, key, today), Query(Floatrates, code, key, today) ]
  }

  /** What trying a list of requests in order yields: the rate found (if any)
      and the requests actually made. */
  datatype Attempt = Attempt(rate: Option<real>, calls: seq<Request>)

  /** Try `qs` in order and stop at the first answer. The calls made are a
      prefix of `qs`; every call before the last missed; the result is the
      last call's answer, or a miss after all of `qs` was tried. */
  function Chain(qs: seq<Request>, fetch: Fetch): (a: Attempt)
    ensures |a.calls| <= |qs| && a.calls == qs[..|a.calls|]
    ensures forall i :: 0 <= i < |a.calls| - 1 ==> fetch(qs[i]).None?
    ensures a.rate.None? ==> a.calls == qs && forall i :: 0 <= i < |qs| ==> fetch(qs[i]).None?
    ensures a.rate.Some? ==> 0 < |a.calls| && a.rate == fetch(qs[|a.calls| - 1])
  {
    if qs == [] then Attempt(None, [])
    else
      match fetch(qs[0])
      case Some(v) => Attempt(Some(v), [qs[0]])
      case None =>
        var rest := Chain(qs[1..], fetch);
        Attempt(rest.rate, [qs[0]] + rest.calls)
  }

  /** The first request that answers decides, and no later request is made. */
  lemma ChainFirstHit(qs: seq<Request>, fetch: Fetch, i: nat)
    requires i < |qs| && fetch(qs[i]).Some?
    requires forall j :: 0 <= j < i ==> fetch(qs[j]).None?
    ensures Chain(qs, fetch) == Attempt(fetch(qs[i]), qs[..i + 1])
  {
    var a := Chain(qs, fetch);
    assert |a.calls| == i + 1;
  }

  /** Every request of every date key in `keys`, date by date. */
  function AllRequests(code: string, keys: seq<DateKey>, today: int): (qs: seq<Request>)
    ensures |qs| == 4 * |keys|
  {
    if keys == [] then [] else Requests(code, keys[0], today) + AllRequests(code, keys[1..], today)
  }

  // ---- resolution -----------------------------------------------------------

  /** The outcome of one resolution: the rate (or unresolved), the cache
      afterwards and the provider requests made, in order. */
  datatype Resolution = Resolution(rate: Option<real>, cache: Cache, calls: seq<Request>)

  /** `r` preceded by the requests `calls`. */
  function After(calls: seq<Request>, r: Resolution): Resolution {
    Resolution(r.rate, r.cache, calls + r.calls)
  }

  /** The walk over the retry window for normalised `code`. A key already
      cached is copied under `requested` and returned; otherwise the four
      providers are tried, and a hit is stored under the tried key and under
      `requested`. A full miss moves on to the next key. */
  function Walk(cache: Cache, code: string, requested: Key, keys: seq<DateKey>, today: int, fetch: Fetch): (r: Resolution)
    ensures r.rate.None? ==> r.cache == cache && r.calls == AllRequests(code, keys, today)
    ensures r.rate.Some? ==> requested in r.cache && r.cache[requested] == r.rate.value
    ensures r.rate.Some? ==>
      exists k :: k in keys && r.cache == cache[(code, k) := r.rate.value][requested := r.rate.value]
    decreases |keys|
  {
    if keys == [] then Resolution(None, cache, [])
    else
      var key := (code, keys[0]);
      if key in cache then
        assert cache[key := cache[key]] == cache;
        Resolution(Some(cache[key]), cache[requested := cache[key]], [])
      else
        var a := Chain(Requests(code, keys[0], today), fetch);
        match a.rate
        case Some(v) => Resolution(Some(v), cache[key := v][requested := v], a.calls)
        case None =>
          var rest := Walk(cache, code, requested, keys[1..], today, fetch);
          assert rest.rate.Some? ==> exists k :: k in keys[1..] && rest.cache == cache[(code, k) := rest.rate.value][requested := rest.rate.value];
          After(a.calls, rest)
  }

  /** `get_rate_to_eur` as a function of the cache before the call. */
  function Resolve(cache: Cache, code: string, day: int, today: int, fetch: Fetch): (r: Resolution)
    ensures r.rate.None? ==> r.cache == cache
  {
    var c := NormalizeCode(code);
    if c == "" then Resolution(None, cache, [])
    else if c == "EUR" then Resolution(Some(1.0), cache, [])
    else if (c, Day(day)) in cache then Resolution(Some(cache[(c, Day(day))]), cache, [])
    else Walk(cache, c, (c, Day(day)), RetryKeys(day, today), today, fetch)
  }

  /** An empty code is unresolved and EUR is exactly 1, both before any cache
      read, cache write or provider call. A code already cached for the
      requested day returns the cached rate, leaving the cache as it was. */
  lemma ResolveShortCircuits(cache: Cache, code: string, day: int, today: int, fetch: Fetch)
    ensures NormalizeCode(code) == "" ==> Resolve(cache, code, day, today, fetch) == Resolution(None, cache, [])
    ensures NormalizeCode(code) == "EUR" ==> Resolve(cache, code, day, today, fetch) == Resolution(Some(1.0), cache, [])
    ensures var c := NormalizeCode(code);
      c != "" && c != "EUR" && (c, Day(day)) in cache ==>
        Resolve(cache, code, day, today, fetch) == Resolution(Some(cache[(c, Day(day))]), cache, [])
  {
  }

  /** Resolution sees a code only through its normal form. */
  lemma ResolveByNormalForm(cache: Cache, a: string, b: string, day: int, today: int, fetch: Fetch)
    requires NormalizeCode(a) == NormalizeCode(b)
    ensures Resolve(cache, a, day, today, fetch) == Resolve(cache, b, day, today, fetch)
  {
  }

  /** A stablecoin alias resolves exactly as its peg currency: same cache
      keys, same provider requests, same result. */
  lemma ResolveAlias(cache: Cache, day: int, today: int, fetch: Fetch)
    ensures Resolve(cache, "USDT", day, today, fetch) == Resolve(cache, "usd", day, today, fetch)
  {
    TrimmedExamples();
    UpperExamples();
    NormalizeTrimmed("USDT");
    NormalizeTrimmed("usd");
    ResolveByNormalForm(cache, "USDT", "usd", day, today, fetch);
  }

  /** A resolved rate is stored under the requested day and under one tried
      key of the retry window, and no other cache entry changes. */
  lemma ResolveSuccess(cache: Cache, code: string, day: int, today: int, fetch: Fetch)
    requires NormalizeCode(code) != "" && NormalizeCode(code) != "EUR"
    requires Resolve(cache, code, day, today, fetch).rate.Some?
    ensures var c, r := NormalizeCode(code), Resolve(cache, code, day, today, fetch);
      exists k :: k in RetryKeys(day, today) &&
        r.cache == cache[(c, k) := r.rate.value][(c, Day(day)) := r.rate.value]
  {
    var c, r := NormalizeCode(code), Resolve(cache, code, day, today, fetch);
    if (c, Day(day)) in cache {
      var ks := RetryKeys(day, today);
      assert ks[|ks| - 6] == Day(day);
      assert cache[(c, Day(day)) := r.rate.value][(c, Day(day)) := r.rate.value] == cache;
    }
  }

  /** Once resolved, a (code, day) pair keeps its rate: asking again returns
      the same value from the cache, with no provider call and no change to
      the cache, whatever the providers would answer now. */
  lemma ResolveRepeat(cache: Cache, code: string, day: int, today: int, fetch: Fetch, later: Fetch)
    requires Resolve(cache, code, day, today, fetch).rate.Some?
    ensures var r := Resolve(cache, code, day, today, fetch);
      Resolve(r.cache, code, day, today, later) == Resolution(r.rate, r.cache, [])
  {
  }

  /** A date key that is not cached and that no provider answers. */
  predicate Misses(cache: Cache, code: string, key: DateKey, today: int, fetch: Fetch) {
    (code, key) !in cache && Chain(Requests(code, key, today), fetch).rate.None?
  }

  lemma WalkMissStep(cache: Cache, code: string, requested: Key, keys: seq<DateKey>, today: int, fetch: Fetch)
    requires |keys| > 0 && Misses(cache, code, keys[0], today, fetch)
    ensures Walk(cache, code, requested, keys, today, fetch)
         == After(Requests(code, keys[0], today), Walk(cache, code, requested, keys[1..], today, fetch))
  {
  }

  lemma AfterAfter(a: seq<Request>, b: seq<Request>, r: Resolution)
    ensures After(a, After(b, r)) == After(a + b, r)
  {
    assert a + (b + r.calls) == a + b + r.calls;
  }

  /** Keys that are neither cached nor answered are passed over: all four of
      their requests are made before the next date key is tried. */
  lemma {:induction false} WalkMissPrefix(cache: Cache, code: string, requested: Key, keys: seq<DateKey>,
                                          today: int, fetch: Fetch, j: nat)
    requires j <= |keys|
    requires forall i :: 0 <= i < j ==> Misses(cache, code, keys[i], today, fetch)
    ensures Walk(cache, code, requested, keys, today, fetch)
         == After(AllRequests(code, keys[..j], today), Walk(cache, code, requested, keys[j..], today, fetch))
    decreases j
  {
    if j == 0 {
      assert keys[..0] == [] && keys[0..] == keys;
      var w := Walk(cache, code, requested, keys, today, fetch);
      assert [] + w.calls == w.calls;
    } else {
      var rest := keys[1..];
      forall i | 0 <= i < j - 1 ensures Misses(cache, code, rest[i], today, fetch) {
        assert rest[i] == keys[i + 1];
      }
      WalkMissPrefix(cache, code, requested, rest, today, fetch, j - 1);
      WalkMissStep(cache, code, requested, keys, today, fetch);
      AfterAfter(Requests(code, keys[0], today), AllRequests(code, rest[..j - 1], today),
                 Walk(cache, code, requested, rest[j - 1..], today, fetch));
      assert keys[..j][0] == keys[0] && keys[..j][1..] == rest[..j - 1];
      assert rest[j - 1..] == keys[j..];
    }
  }

  /** The first retry key found in the cache decides: after the keys before
      it were passed over, its rate is returned and pinned under the
      requested key, and no provider is asked for it or any later key. */
  lemma WalkCachedAt(cache: Cache, code: string, requested: Key, keys: seq<DateKey>,
                     today: int, fetch: Fetch, j: nat)
    requires j < |keys| && (code, keys[j]) in cache
    requires forall i :: 0 <= i < j ==> Misses(cache, code, keys[i], today, fetch)
    ensures var v := cache[(code, keys[j])];
      Walk(cache, code, requested, keys, today, fetch)
        == Resolution(Some(v), cache[requested := v], AllRequests(code, keys[..j], today))
  {
    WalkMissPrefix(cache, code, requested, keys, today, fetch, j);
    assert keys[j..][0] == keys[j];
    var qs := AllRequests(code, keys[..j], today);
    assert qs + [] == qs;
  }

  /** The first retry key a provider answers decides: after the keys before
      it were passed over, its providers are asked up to the first answer,
      which is stored under the tried key and the requested key. */
  lemma WalkAnsweredAt(cache: Cache, code: string, requested: Key, keys: seq<DateKey>,
                       today: int, fetch: Fetch, j: nat)
    requires j < |keys| && (code, keys[j]) !in cache
    requires Chain(Requests(code, keys[j], today), fetch).rate.Some?
    requires forall i :: 0 <= i < j ==> Misses(cache, code, keys[i], today, fetch)
    ensures var a := Chain(Requests(code, keys[j], today), fetch);
      var v := a.rate.value;
      Walk(cache, code, requested, keys, today, fetch)
        == Resolution(a.rate, cache[(code, keys[j]) := v][requested := v],
                      AllRequests(code, keys[..j], today) + a.calls)
  {
    WalkMissPrefix(cache, code, requested, keys, today, fetch, j);
    assert keys[j..][0] == keys[j];
  }

  /** `get_rate_to_eur` when the requested day is not cached: the first key
      of the retry window that is cached is copied under the requested day
      and returned, after all four providers were asked for each key before
      it. */
  lemma ResolveCachedRetry(cache: Cache, code: string, day: int, today: int, fetch: Fetch, j: nat)
    requires NormalizeCode(code) != "" && NormalizeCode(code) != "EUR"
    requires (NormalizeCode(code), Day(day)) !in cache
    requires j < |RetryKeys(day, today)| && (NormalizeCode(code), RetryKeys(day, today)[j]) in cache
    requires forall i :: 0 <= i < j ==> Misses(cache, NormalizeCode(code), RetryKeys(day, today)[i], today, fetch)
    ensures var c, ks := NormalizeCode(code), RetryKeys(day, today);
      var v := cache[(c, ks[j])];
      Resolve(cache, code, day, today, fetch)
        == Resolution(Some(v), cache[(c, Day(day)) := v], AllRequests(c, ks[..j], today))
  {
    var c, ks := NormalizeCode(code), RetryKeys(day, today);
    WalkCachedAt(cache, c, (c, Day(day)), ks, today, fetch, j);
  }

  /** `get_rate_to_eur` when the requested day is not cached: the first key
      of the retry window a provider answers gives the rate, stored under
      that key and under the requested day; the calls are every request of
      the keys before it, then that key's providers up to the answer. */
  lemma ResolveAnsweredRetry(cache: Cache, code: string, day: int, today: int, fetch: Fetch, j: nat)
    requires NormalizeCode(code) != "" && NormalizeCode(code) != "EUR"
    requires (NormalizeCode(code), Day(day)) !in cache
    requires j < |RetryKeys(day, today)| && (NormalizeCode(code), RetryKeys(day, today)[j]) !in cache
    requires Chain(Requests(NormalizeCode(code), RetryKeys(day, today)[j], today), fetch).rate.Some?
    requires forall i :: 0 <= i < j ==> Misses(cache, NormalizeCode(code), RetryKeys(day, today)[i], today, fetch)
    ensures var c, ks := NormalizeCode(code), RetryKeys(day, today);
      var a := Chain(Requests(c, ks[j], today), fetch);
      var v := a.rate.value;
      Resolve(cache, code, day, today, fetch)
        == Resolution(a.rate, cache[(c, ks[j]) := v][(c, Day(day)) := v], AllRequests(c, ks[..j], today) + a.calls)
  {
    var c, ks := NormalizeCode(code), RetryKeys(day, today);
    WalkAnsweredAt(cache, c, (c, Day(day)), ks, today, fetch, j);
  }

  /** The cache is never evicted, so a "latest" rate stored on an earlier
      day still answers a request for today, and is pinned under today with
      no provider call. */
  lemma ResolveStaleLatest(cache: Cache, code: string, today: int, fetch: Fetch)
    requires NormalizeCode(code) != "" && NormalizeCode(code) != "EUR"
    requires (NormalizeCode(code), Day(today)) !in cache && (NormalizeCode(code), Latest) in cache
    ensures var c := NormalizeCode(code);
      var v := cache[(c, Latest)];
      Resolve(cache, code, today, today, fetch) == Resolution(Some(v), cache[(c, Day(today)) := v], [])
  {
    var c, ks := NormalizeCode(code), RetryKeys(today, today);
    ResolveCachedRetry(cache, code, today, today, fetch, 0);
    assert ks[..0] == [];
  }

  /** If no tried key is cached and every provider misses for every key, the
      result is unresolved, the cache is unchanged, and all 4 providers have
      been asked for each key of the window in turn. */
  lemma ResolveExhausted(cache: Cache, code: string, day: int, today: int, fetch: Fetch)
    requires NormalizeCode(code) != "" && NormalizeCode(code) != "EUR"
    requires forall k :: k in RetryKeys(day, today) ==> (NormalizeCode(code), k) !in cache
    requires forall k, p :: k in RetryKeys(day, today) ==> fetch(Query(p, NormalizeCode(code), k, today)).None?
    ensures Resolve(cache, code, day, today, fetch)
         == Resolution(None, cache, AllRequests(NormalizeCode(code), RetryKeys(day, today), today))
  {
    var c, ks := NormalizeCode(code), RetryKeys(day, today);
    forall i | 0 <= i < |ks| ensures Misses(cache, c, ks[i], today, fetch) {
      var qs := Requests(c, ks[i], today);
      assert forall n :: 0 <= n < 4 ==> fetch(qs[n]).None?;
    }
    assert ks[|ks| - 6] == Day(day);
    assert ks[..|ks|] == ks && ks[|ks|..] == [];
    WalkMissPrefix(cache, c, (c, Day(day)), ks, today, fetch, |ks|);
    assert AllRequests(c, ks, today) + [] == AllRequests(c, ks, today);
  }

  // ---- the imperative resolver ----------------------------------------------

  /** The body of the loop over `tries` for one date key that is not
      cached: Frankfurter, exchangerate.host, Fawaz and Floatrates in turn; the
      first rate found is stored under the tried key and the requested key. */
  method TryProviders(cache: RateCache, code: string, key: DateKey, requested: Key, today: int, fetch: Fetch)
    returns (hit: Option<real>, ghost calls: seq<Request>)
    modifies cache
    ensures var a := Chain(Requests(code, key, today), fetch);
      hit == a.rate && calls == a.calls
    ensures hit.None? ==> cache.entries == old(cache.entries)
    ensures hit.Some? ==> cache.entries == old(cache.entries)[(code, key) := hit.value][requested := hit.value]
  {
    ghost var qs := Requests(code, key, today);
    // 1) Frankfurter
    var q := Query(Frankfurter, code, key, today);
    hit := fetch(q);
    calls := [q];
    if hit.Some? {
      cache.entries := cache.entries[(code, key) := hit.value][requested := hit.value];
      ChainFirstHit(qs, fetch, 0);
      return;
    }
    // 2) exchangerate.host, asked for today instead of "latest"
    q := Query(ExchangerateHost, code, key, today);
    hit := fetch(q);
    calls := calls + [q];
    if hit.Some? {
      cache.entries := cache.entries[(code, key) := hit.value][requested := hit.value];
      ChainFirstHit(qs, fetch, 1);
      assert calls == qs[..2];
      return;
    }
    // 3) Fawaz
    q := Query(Fawaz, code, key, today);
    hit := fetch(q);
    calls := calls + [q];
    if hit.Some? {
      cache.entries := cache.entries[(code, key) := hit.value][requested := hit.value];
      ChainFirstHit(qs, fetch, 2);
      assert calls == qs[..3];
      return;
    }
    // 4) Floatrates, latest only
    q := Query(Floatrates, code, key, today);
    hit := fetch(q);
    calls := calls + [q];
    if hit.Some? {
      cache.entries := cache.entries[(code, key) := hit.value][requested := hit.value];
      ChainFirstHit(qs, fetch, 3);
      assert calls == qs[..4];
      return;
    }
    assert calls == qs;
  }

  /** `get_rate_to_eur`. `today` is the date the program reads from the clock;
      `calls` records the provider requests made, in order. */
  method GetRateToEur(cache: RateCache, code: string, day: int, today: int, fetch: Fetch)
    returns (rate: Option<real>, ghost calls: seq<Request>)
    modifies cache
    ensures Resolution(rate, cache.entries, calls) == Resolve(old(cache.entries), code, day, today, fetch)
  {
    var c := NormalizeCode(code);
    if c == "" {
      return None, [];
    }
    if c == "EUR" {
      return Some(1.0), [];
    }
    var tries := BuildTries(day, today);
    var requested := (c, Day(day));
    if requested in cache.entries {
      return Some(cache.entries[requested]), [];
    }
    ghost var start := cache.entries;
    calls := [];
    for i := 0 to |tries|
      invariant cache.entries == start
      invariant Resolve(start, code, day, today, fetch)
             == After(calls, Walk(start, c, requested, tries[i..], today, fetch))
    {
      ghost var keys := tries[i..];
      assert keys[0] == tries[i] && keys[1..] == tries[i + 1..];
      var key := (c, tries[i]);
      if key in cache.entries {
        var v := cache.entries[key];
        cache.entries := cache.entries[requested := v];
        assert calls + [] == calls;
        return Some(v), calls;
      }
      var hit;
      ghost var made;
      hit, made := TryProviders(cache, c, tries[i], requested, today, fetch);
      if hit.Some? {
        return hit, calls + made;
      }
      AfterAfter(calls, made, Walk(start, c, requested, keys[1..], today, fetch));
      calls := calls + made;
    }
    assert tries[|tries|..] == [];
    assert calls + [] == calls;
    return None, calls;
  }

  // ---- conversion -----------------------------------------------------------

  /** The arithmetic of `convert_to_eur`: an unresolved rate gives no amount
      (never zero); otherwise `amount * rate` rounded half-up to a whole
      number of cents. */
  function EurAmount(amount: real, rate: Option<real>): (eur: Option<int>)
    ensures eur.None? <==> rate.None?
    ensures eur.Some? && amount * rate.value >= 0.0 ==>
      eur.value as real - 0.5 <= 100.0 * (amount * rate.value) < eur.value as real + 0.5
    ensures eur.Some? && amount * rate.value < 0.0 ==>
      eur.value as real - 0.5 < 100.0 * (amount * rate.value) <= eur.value as real + 0.5
  {
    match rate
    case None => None
    case Some(r) => Some(QuantizeHalfUp(amount * r))
  }

  /** Conversion rounds half-up, symmetrically: 10.005 becomes 10.01 and
      -10.005 becomes -10.01. */
  lemma EurAmountRoundsHalfUp()
    ensures EurAmount(1.0, Some(10.005)) == Some(1001)
    ensures EurAmount(-1.0, Some(10.005)) == Some(-1001)
  {
    assert 100.0 * (1.0 * 10.005) == 1000.5;
    assert 100.0 * (-1.0 * 10.005) == -1000.5;
  }

  /** `convert_to_eur`: resolve the rate, then convert. */
  method ConvertToEur(cache: RateCache, amount: real, code: string, day: int, today: int, fetch: Fetch)
    returns (eur: Option<int>, ghost calls: seq<Request>)
    modifies cache
    ensures var r := Resolve(old(cache.entries), code, day, today, fetch);
      eur == EurAmount(amount, r.rate) && cache.entries == r.cache && calls == r.calls
  {
    var rate;
    rate, calls := GetRateToEur(cache, code, day, today, fetch);
    if rate.None? {
      return None, calls;
    }
    eur := EurAmount(amount, rate);
  }

  /** Every provider misses `key` for `code`. */
  predicate AllMiss(fetch: Fetch, code: string, key: DateKey, today: int) {
    forall p :: fetch(Query(p, code, key, today)).None?
  }

  lemma AllMissMisses(cache: Cache, code: string, key: DateKey, today: int, fetch: Fetch)
    requires (code, key) !in cache && AllMiss(fetch, code, key, today)
    ensures Misses(cache, code, key, today, fetch)
  {
    var qs := Requests(code, key, today);
    assert forall n :: 0 <= n < 4 ==> fetch(qs[n]).None?;
  }

  /** When the first key of the window is answered by Frankfurter, that is the
      only provider call and the one new cache entry. */
  lemma ResolveFirstHit(cache: Cache, code: string, day: int, today: int, fetch: Fetch, v: real)
    requires NormalizeCode(code) != "" && NormalizeCode(code) != "EUR"
    requires day != today && (NormalizeCode(code), Day(day)) !in cache
    requires fetch(Request(Frankfurter, NormalizeCode(code), Day(day))) == Some(v)
    ensures var c := NormalizeCode(code);
      Resolve(cache, code, day, today, fetch)
      == Resolution(Some(v), cache[(c, Day(day)) := v], [Request(Frankfurter, c, Day(day))])
  {
    var c := NormalizeCode(code);
    var ks := RetryKeys(day, today);
    assert ks[0] == Day(day);
    var qs := Requests(c, Day(day), today);
    ChainFirstHit(qs, fetch, 0);
    assert qs[..1] == [Request(Frankfurter, c, Day(day))];
    assert cache[(c, Day(day)) := v][(c, Day(day)) := v] == cache[(c, Day(day)) := v];
  }

  /** 100 USDT on a past day whose Frankfurter rate for USD is 0.92: the
      rate is cached under ("USD", day) after one provider call, and the
      amount is 92.00 EUR. */
  lemma ConvertUsdtExample(day: int, today: int, fetch: Fetch)
    requires day != today
    requires fetch(Request(Frankfurter, "USD", Day(day))) == Some(0.92)
    ensures var r := Resolve(map[], "USDT", day, today, fetch);
      && r == Resolution(Some(0.92), map[("USD", Day(day)) := 0.92], [Request(Frankfurter, "USD", Day(day))])
      && EurAmount(100.0, r.rate) == Some(9200)
  {
    TrimmedExamples();
    UpperExamples();
    NormalizeTrimmed("USDT");
    ResolveFirstHit(map[], "USDT", day, today, fetch, 0.92);
    assert 100.0 * (100.0 * 0.92) == 9200.0;
  }

  /** A past day whose rate only exists two days earlier: after both
      earlier keys miss at all four providers, Frankfurter's rate for day - 2
      is returned and cached under day - 2 and under the requested day. */
  lemma ResolveShifted(cache: Cache, code: string, day: int, today: int, fetch: Fetch, v: real)
    requires NormalizeCode(code) != "" && NormalizeCode(code) != "EUR" && day != today
    requires (NormalizeCode(code), Day(day)) !in cache && (NormalizeCode(code), Day(day - 1)) !in cache
    requires (NormalizeCode(code), Day(day - 2)) !in cache
    requires AllMiss(fetch, NormalizeCode(code), Day(day), today)
    requires AllMiss(fetch, NormalizeCode(code), Day(day - 1), today)
    requires fetch(Request(Frankfurter, NormalizeCode(code), Day(day - 2))) == Some(v)
    ensures var c, r := NormalizeCode(code), Resolve(cache, code, day, today, fetch);
      && r.rate == Some(v)
      && r.cache == cache[(c, Day(day - 2)) := v][(c, Day(day)) := v]
  {
    var c := NormalizeCode(code);
    var req, ks := (c, Day(day)), RetryKeys(day, today);
    assert ks[0] == Day(day) && ks[1] == Day(day - 1) && ks[2] == Day(day - 2);
    AllMissMisses(cache, c, ks[0], today, fetch);
    AllMissMisses(cache, c, ks[1], today, fetch);
    WalkMissPrefix(cache, c, req, ks, today, fetch, 2);
    var rest := ks[2..];
    assert rest[0] == Day(day - 2);
    var qs := Requests(c, rest[0], today);
    ChainFirstHit(qs, fetch, 0);
    var after := cache[(c, Day(day - 2)) := v][req := v];
    assert Walk(cache, c, req, rest, today, fetch) == Resolution(Some(v), after, qs[..1]);
    var r := Resolve(cache, code, day, today, fetch);
    assert r.rate == Some(v) && r.cache == after;
  }

  /** Continuing `ResolveShifted`: the one fetch serves later queries for the
      requested day and for the day that answered, with no provider call. */
  lemma ResolveShiftedPinned(cache: Cache, code: string, day: int, today: int, fetch: Fetch, later: Fetch, v: real)
    requires NormalizeCode(code) != "" && NormalizeCode(code) != "EUR" && day != today
    requires (NormalizeCode(code), Day(day)) !in cache && (NormalizeCode(code), Day(day - 1)) !in cache
    requires (NormalizeCode(code), Day(day - 2)) !in cache
    requires AllMiss(fetch, NormalizeCode(code), Day(day), today)
    requires AllMiss(fetch, NormalizeCode(code), Day(day - 1), today)
    requires fetch(Request(Frankfurter, NormalizeCode(code), Day(day - 2))) == Some(v)
    ensures var c, r := NormalizeCode(code), Resolve(cache, code, day, today, fetch);
      && Resolve(r.cache, c, day - 2, today, later) == Resolution(Some(v), r.cache, [])
      && Resolve(r.cache, code, day, today, later) == Resolution(Some(v), r.cache, [])
  {
    ResolveShifted(cache, code, day, today, fetch, v);
    var c, r := NormalizeCode(code), Resolve(cache, code, day, today, fetch);
    NormalizeIdempotent(code);
    assert (c, Day(day - 2)) in r.cache && r.cache[(c, Day(day - 2))] == v;
    ResolveShortCircuits(r.cache, c, day - 2, today, later);
    ResolveRepeat(cache, code, day, today, fetch, later);
  }
}
