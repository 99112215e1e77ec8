/**
 * The REST client (src/lib/api/finnhub.js): a response cache keyed by endpoint and
 * parameters with a one-minute freshness window, and four cache-first fetchers that fall
 * back to generated mock data.  The cache is a `Map` the module mutates, so the client is a
 * class whose `cache` field the fetchers reassign.  The clock, the upstream response and the
 * random parts of the mock generators are parameters.
 */
module Finnhub {
  import opened Wrappers
  import opened Text
  import opened Sequences

  /** Freshness window of a cache entry, in milliseconds. */
  const CacheDuration := 60000
  /** 24 * 60 * 60. */
  const SecondsPerDay := 86400
  /** Longest mock candle series. */
  const MaxMockDays := 90

  const QuoteEndpoint := "quote"
  const ProfileEndpoint := "profile"
  const NewsEndpoint := "news"
  const CandlesEndpoint := "candles"

  /** A `/quote` body; every field may be missing. */
  datatype Quote = Quote(c: Option<real>, d: Option<real>, dp: Option<real>, h: Option<real>,
                         l: Option<real>, o: Option<real>, pc: Option<real>)

  /** A `/stock/profile2` body. */
  datatype Profile = Profile(name: Option<string>, ticker: Option<string>, exchange: Option<string>,
                             country: Option<string>, currency: Option<string>,
                             marketCapitalization: Option<int>)

  datatype Article = Article(headline: string, source: string, url: string, datetime: int)

  /** A `/stock/candle` body: parallel arrays and a status. */
  datatype Candles = Candles(c: seq<real>, h: seq<real>, l: seq<real>, o: seq<real>,
                             t: seq<int>, v: seq<int>, s: string)

  /** What a cache entry holds.  `NullData` is a `null` body stored by the news fetcher. */
  datatype Data =
    | NullData
    | QuoteData(quote: Quote)
    | ProfileData(profile: Profile)
    | NewsData(articles: seq<Article>)
    | CandleData(candles: Candles)

  datatype Entry = Entry(data: Data, timestamp: int)

  /** The parameter objects the fetchers key the cache by, in their property order. */
  datatype Params =
    | SymbolParams(symbol: string)
    | CategoryParams(category: string)
    | CandleParams(symbol: string, resolution: string, from: int, to: int)

  /** The outcome of an awaited upstream GET: a body, an empty body, or a thrown error. */
  datatype Fetch<T> = Ok(body: T) | NoBody | Failed

  datatype Request = Request(endpoint: string, params: Params)

  /** The random draws of one mock candle day. */
  datatype Bar = Bar(c: real, h: real, l: real, o: real, v: int)

  /** An element of `getMultipleQuotes`' result: the symbol spread with its quote. */
  datatype Tagged = Tagged(symbol: string, quote: Quote)

  // ---------------------------------------------------------------- cache keys

  /** The escape `JSON.stringify` writes for a character inside a string. */
  function EscapeChar(ch: char): string
  {
    if ch == '"' then "\\\"" else if ch == '\\' then "\\\\" else [ch]
  }

  function Escape(s: string): (r: string)
    ensures |r| >= |s|
    ensures '"' !in s && '\\' !in s ==> r == s
  {
    if s == [] then [] else EscapeChar(s[0]) + Escape(s[1..])
  }

  /** Reads escaped text back: a backslash takes the next character literally. */
  function Unescape(s: string): string
  {
    if s == [] then []
    else if s[0] == '\\' && |s| >= 2 then [s[1]] + Unescape(s[2..])
    else [s[0]] + Unescape(s[1..])
  }

  lemma {:induction false} UnescapeEscape(s: string)
    ensures Unescape(Escape(s)) == s
  {
    if s != [] {
      UnescapeEscape(s[1..]);
      var rest := Escape(s[1..]);
      assert Escape(s) == EscapeChar(s[0]) + rest;
      if s[0] == '"' || s[0] == '\\' {
        assert (EscapeChar(s[0]) + rest)[2..] == rest;
      } else {
        assert (EscapeChar(s[0]) + rest)[1..] == rest;
      }
    }
  }

  /** Different strings escape differently. */
  lemma EscapeInjective(a: string, b: string)
    requires Escape(a) == Escape(b)
    ensures a == b
  {
    UnescapeEscape(a);
    UnescapeEscape(b);
  }

  function Quoted(s: string): string
  {
    "\"" + Escape(s) + "\""
  }

  /** `JSON.stringify(params)` for the objects the fetchers build. */
  function Stringify(p: Params): string
  {
    match p
    case SymbolParams(symbol) => "{\"symbol\":" + Quoted(symbol) + "}"
    case CategoryParams(category) => "{\"category\":" + Quoted(category) + "}"
    case CandleParams(symbol, resolution, from, to) =>
      "{\"symbol\":" + Quoted(symbol) + ",\"resolution\":" + Quoted(resolution)
        + ",\"from\":" + IntToString(from) + ",\"to\":" + IntToString(to) + "}"
  }

  /** `getCacheKey(endpoint, params)`. */
  function CacheKey(endpoint: string, p: Params): string
  {
    endpoint + "-" + Stringify(p)
  }

  /** The text of a key before its first '-'. */
  function EndpointOf(key: string): string
  {
    if key == [] || key[0] == '-' then [] else [key[0]] + EndpointOf(key[1..])
  }

  /** The text before a '-' that follows a '-'-free prefix is that prefix. */
  lemma {:induction false} EndpointOfPrefix(prefix: string, rest: string)
    requires '-' !in prefix
    ensures EndpointOf(prefix + "-" + rest) == prefix
  {
    if prefix != [] {
      assert (prefix + "-" + rest)[1..] == prefix[1..] + "-" + rest;
      EndpointOfPrefix(prefix[1..], rest);
    }
  }

  /** A key names the endpoint it was made for, so keys of different endpoints never collide. */
  lemma EndpointOfKey(endpoint: string, p: Params)
    requires '-' !in endpoint
    ensures EndpointOf(CacheKey(endpoint, p)) == endpoint
  {
    EndpointOfPrefix(endpoint, Stringify(p));
  }

  lemma EndpointKeysDistinct(e1: string, e2: string, p1: Params, p2: Params)
    requires '-' !in e1 && '-' !in e2 && e1 != e2
    ensures CacheKey(e1, p1) != CacheKey(e2, p2)
  {
    EndpointOfKey(e1, p1);
    EndpointOfKey(e2, p2);
  }

  /** A string field closing a JSON object can be read back from the text around it. */
  lemma LastFieldInjective(pre: string, a: string, b: string)
    requires pre + Escape(a) + "\"}" == pre + Escape(b) + "\"}"
    ensures a == b
  {
    var ka, kb := pre + Escape(a) + "\"}", pre + Escape(b) + "\"}";
    assert ka[|pre|..|ka| - 2] == Escape(a);
    assert kb[|pre|..|kb| - 2] == Escape(b);
    EscapeInjective(a, b);
  }

  /** The key of a one-field parameter object ends with that field's escaped value. */
  lemma OneFieldKey(endpoint: string, open: string, value: string)
    ensures endpoint + "-" + (open + Quoted(value) + "}") == (endpoint + "-" + open + "\"") + Escape(value) + "\"}"
  {
    var e := Escape(value);
    calc {
      endpoint + "-" + (open + Quoted(value) + "}");
      endpoint + "-" + (open + ("\"" + e + "\"") + "}");
      { assert open + ("\"" + e + "\"") + "}" == open + "\"" + e + ("\"" + "}"); }
      endpoint + "-" + (open + "\"" + e + ("\"" + "}"));
    }
  }

  /** Two symbols share a quote (or profile) entry only when they are the same symbol. */
  lemma SymbolKeysDistinct(endpoint: string, a: string, b: string)
    ensures CacheKey(endpoint, SymbolParams(a)) == CacheKey(endpoint, SymbolParams(b)) <==> a == b
  {
    if CacheKey(endpoint, SymbolParams(a)) == CacheKey(endpoint, SymbolParams(b)) {
      OneFieldKey(endpoint, "{\"symbol\":", a);
      OneFieldKey(endpoint, "{\"symbol\":", b);
      LastFieldInjective(endpoint + "-" + "{\"symbol\":" + "\"", a, b);
    }
  }

  /** Two news categories share an entry only when they are the same category. */
  lemma CategoryKeysDistinct(endpoint: string, a: string, b: string)
    ensures CacheKey(endpoint, CategoryParams(a)) == CacheKey(endpoint, CategoryParams(b)) <==> a == b
  {
    if CacheKey(endpoint, CategoryParams(a)) == CacheKey(endpoint, CategoryParams(b)) {
      OneFieldKey(endpoint, "{\"category\":", a);
      OneFieldKey(endpoint, "{\"category\":", b);
      LastFieldInjective(endpoint + "-" + "{\"category\":" + "\"", a, b);
    }
  }

  // ---------------------------------------------------------------- the cache

  /**
   * `getFromCache(key)` at time `now`, as the fetchers see it: the stored data when an entry
   * exists, is younger than the window and is not `null`; a miss otherwise.
   */
  function FromCache(cache: map<string, Entry>, key: string, now: int): (r: Option<Data>)
    ensures r.Some? <==> key in cache && now - cache[key].timestamp < CacheDuration && cache[key].data != NullData
    ensures r.Some? ==> r.value == cache[key].data
  {
    if key in cache && now - cache[key].timestamp < CacheDuration && cache[key].data != NullData
    then Some(cache[key].data) else None
  }

  /** An entry written at `t` is served until just before `t + 60000`; other keys are untouched. */
  lemma SetThenGet(cache: map<string, Entry>, key: string, data: Data, t: int, now: int, other: string)
    requires data != NullData
    ensures FromCache(cache[key := Entry(data, t)], key, now) == Some(data) <==> now < t + CacheDuration
    ensures other != key ==> FromCache(cache[key := Entry(data, t)], other, now) == FromCache(cache, other, now)
  {
  }

  /** The kind of data each endpoint's fetcher stores. */
  predicate Serves(endpoint: string, d: Data)
  {
    if endpoint == QuoteEndpoint then d.QuoteData?
    else if endpoint == ProfileEndpoint then d.ProfileData?
    else if endpoint == NewsEndpoint then d.NewsData? || d.NullData?
    else if endpoint == CandlesEndpoint then d.CandleData?
    else true
  }

  function QuoteKey(symbol: string): string { CacheKey(QuoteEndpoint, SymbolParams(symbol)) }
  function ProfileKey(symbol: string): string { CacheKey(ProfileEndpoint, SymbolParams(symbol)) }
  function NewsKey(category: string): string { CacheKey(NewsEndpoint, CategoryParams(category)) }
  function CandlesKey(symbol: string, resolution: string, from: int, to: int): string
  {
    CacheKey(CandlesEndpoint, CandleParams(symbol, resolution, from, to))
  }

  // ---------------------------------------------------------------- response checks and mocks

  /** `response.data && response.data.c !== 0`. */
  predicate ValidQuote(f: Fetch<Quote>)
  {
    f.Ok? && f.body.c != Some(0.0)
  }

  /** `response.data && response.data.name`: a non-empty name. */
  predicate ValidProfile(f: Fetch<Profile>)
  {
    f.Ok? && f.body.name.Some? && f.body.name.value != ""
  }

  /** `response.data && response.data.s === 'ok'`. */
  predicate ValidCandles(f: Fetch<Candles>)
  {
    f.Ok? && f.body.s == "ok"
  }

  /** `generateMockProfile(symbol)` with the random market capitalisation as a parameter. */
  function MockProfile(symbol: string, marketCap: int): (p: Profile)
    ensures p.name.Some? && p.name.value != "" && p.ticker == Some(symbol)
  {
    Profile(Some(symbol + " Inc."), Some(symbol), Some("NASDAQ"), Some("US"), Some("USD"), Some(marketCap))
  }

  /** `Math.min(Math.floor((to - from) / 86400), 90)`: whole days in the range, at most 90. */
  function MockDays(from: int, to: int): (days: int)
    ensures days <= MaxMockDays
    ensures days < MaxMockDays ==> days * SecondsPerDay <= to - from < (days + 1) * SecondsPerDay
    ensures days == MaxMockDays ==> to - from >= MaxMockDays * SecondsPerDay
  {
    var whole := (to - from) / SecondsPerDay;
    if whole < MaxMockDays then whole else MaxMockDays
  }

  /** The mock series `generateMockCandles` builds for `days` days ending at second `now`. */
  function MockCandles(days: int, now: int, sample: nat -> Bar): (r: Candles)
    ensures r.s == "ok"
    ensures |r.t| == |r.c| == |r.v| == (if days > 0 then days else 0)
  {
    var n := if days > 0 then days else 0;
    Candles(seq(n, i requires 0 <= i < n => sample(i).c), seq(n, i requires 0 <= i < n => sample(i).h), seq(n, i requires 0 <= i < n => sample(i).l),
            seq(n, i requires 0 <= i < n => sample(i).o), seq(n, i requires 0 <= i < n => now - (days - i - 1) * SecondsPerDay),
            seq(n, i requires 0 <= i < n => sample(i).v), "ok")
  }

  /**
   * A mock series has `max(days, 0)` entries in every array, daily timestamps one day apart
   * and strictly increasing, the last one at `now`, and status 'ok'.
   */
  lemma MockCandlesShape(days: int, now: int, sample: nat -> Bar)
    ensures var m := MockCandles(days, now, sample); var n := if days > 0 then days else 0;
      && |m.c| == n && |m.h| == n && |m.l| == n && |m.o| == n && |m.t| == n && |m.v| == n
      && m.s == "ok"
      && (forall i :: 0 < i < n ==> m.t[i] == m.t[i - 1] + SecondsPerDay)
      && (forall i, j :: 0 <= i < j < n ==> m.t[i] < m.t[j])
      && (days > 0 ==> m.t[n - 1] == now && m.t[0] == now - (days - 1) * SecondsPerDay)
  {
  }

  /** `generateMockCandles(symbol, days)` at millisecond `nowMs`; `sample(i)` is day `i`'s draws. */
  method GenerateMockCandles(days: int, nowMs: int, sample: nat -> Bar) returns (data: Candles)
    ensures data == MockCandles(days, nowMs / 1000, sample)
  {
    var now := nowMs / 1000;
    var c, h, l, o, t, v := [], [], [], [], [], [];
    var i := 0;
    while i < days
      invariant 0 <= i <= (if days > 0 then days else 0)
      invariant |c| == i && |h| == i && |l| == i && |o| == i && |t| == i && |v| == i
      invariant forall k :: 0 <= k < i ==>
        && c[k] == sample(k).c && h[k] == sample(k).h && l[k] == sample(k).l
        && o[k] == sample(k).o && v[k] == sample(k).v
      invariant forall k :: 0 <= k < i ==> t[k] == now - (days - k - 1) * SecondsPerDay
    {
      var bar := sample(i);
      c, h, l, o := c + [bar.c], h + [bar.h], l + [bar.l], o + [bar.o];
      t := t + [now - (days - i - 1) * SecondsPerDay];
      v := v + [bar.v];
      i := i + 1;
    }
    data := Candles(c, h, l, o, t, v, "ok");
    assert data.t == MockCandles(days, now, sample).t;
    assert data.c == MockCandles(days, now, sample).c;
  }

  /** `symbols.map((symbol, index) => ({symbol, ...results[index]}))`. */
  function TagQuotes(symbols: seq<string>, results: seq<Quote>): (r: seq<Tagged>)
    requires |results| == |symbols|
    ensures |r| == |symbols|
    ensures forall i :: 0 <= i < |r| ==> r[i].symbol == symbols[i] && r[i].quote == results[i]
  {
    if symbols == [] then [] else [Tagged(symbols[0], results[0])] + TagQuotes(symbols[1..], results[1..])
  }

  // ---------------------------------------------------------------- quotes, as values

  /** What one `getQuote` call returns, the cache it leaves and the upstream GETs it issues. */
  datatype QuoteOutcome = QuoteOutcome(quote: Quote, cache: map<string, Entry>, sent: seq<Request>)

  /**
   * `getQuote(symbol)` started on `cache`, where `key` is the symbol's cache key
   * (`QuoteKey(symbol)`): a fresh entry is returned as it is; otherwise the mock (mock mode,
   * or an invalid or failed response) or the upstream body is returned and stored, stamped
   * with the time it was stored.
   */
  function FetchQuote(cache: map<string, Entry>, key: string, symbol: string, now: int, doneAt: int,
                      useMock: bool, upstream: Fetch<Quote>, mock: Quote): (o: QuoteOutcome)
    ensures key in o.cache && o.cache[key].data == QuoteData(o.quote)
    ensures |o.sent| <= 1 && (useMock ==> o.sent == [])
  {
    var cached := FromCache(cache, key, now);
    if cached.Some? && cached.value.QuoteData? then
      QuoteOutcome(cached.value.quote, cache, [])
    else if useMock then
      QuoteOutcome(mock, cache[key := Entry(QuoteData(mock), now)], [])
    else
      var q := if ValidQuote(upstream) then upstream.body else mock;
      QuoteOutcome(q, cache[key := Entry(QuoteData(q), doneAt)], [Request(QuoteEndpoint, SymbolParams(symbol))])
  }

  /**
   * `getQuote` is cache-first: a fresh entry is returned unchanged with no request; on a miss
   * the mock (mock mode, or a response that is missing or has `c` equal to 0) or the upstream
   * body is returned and stored, stamped at the check in mock mode and when the response
   * arrived otherwise, and one GET is issued unless in mock mode.  Every entry at a quote key
   * holds a quote, as the client's invariant guarantees.
   */
  lemma FetchQuoteSpec(cache: map<string, Entry>, symbol: string, now: int, doneAt: int, useMock: bool,
                       upstream: Fetch<Quote>, mock: Quote)
    requires QuoteKey(symbol) in cache ==> cache[QuoteKey(symbol)].data.QuoteData?
    ensures var key := QuoteKey(symbol);
      var o := FetchQuote(cache, key, symbol, now, doneAt, useMock, upstream, mock);
      && (FromCache(cache, key, now).Some? ==>
            cache[key].data == QuoteData(o.quote) && o.cache == cache && o.sent == [])
      && (FromCache(cache, key, now).None? ==>
            && o.quote == (if !useMock && ValidQuote(upstream) then upstream.body else mock)
            && o.cache == cache[key := Entry(QuoteData(o.quote), if useMock then now else doneAt)]
            && o.sent == (if useMock then [] else [Request(QuoteEndpoint, SymbolParams(symbol))]))
  {
  }

  /** A `getQuote` call touches no entry but its own symbol's. */
  lemma FetchQuoteLeavesOthers(cache: map<string, Entry>, key: string, symbol: string, now: int, doneAt: int,
                               useMock: bool, upstream: Fetch<Quote>, mock: Quote, other: string)
    requires other != key
    ensures var o := FetchQuote(cache, key, symbol, now, doneAt, useMock, upstream, mock);
      (other in o.cache <==> other in cache) && (other in cache ==> o.cache[other] == cache[other])
  {
  }

  /** A `getQuote` call depends on the cache only through its own symbol's entry. */
  lemma FetchQuoteLocal(c1: map<string, Entry>, c2: map<string, Entry>, key: string, symbol: string, now: int,
                        doneAt: int, useMock: bool, upstream: Fetch<Quote>, mock: Quote)
    requires key in c1 <==> key in c2
    requires key in c1 ==> c1[key] == c2[key]
    ensures FetchQuote(c1, key, symbol, now, doneAt, useMock, upstream, mock).quote
         == FetchQuote(c2, key, symbol, now, doneAt, useMock, upstream, mock).quote
    ensures FetchQuote(c1, key, symbol, now, doneAt, useMock, upstream, mock).sent
         == FetchQuote(c2, key, symbol, now, doneAt, useMock, upstream, mock).sent
  {
  }

  /** The cache keys of `symbols`, in order. */
  function QuoteKeys(symbols: seq<string>): (keys: seq<string>)
    ensures |keys| == |symbols|
  {
    Map(QuoteKey, symbols)
  }

  /** The `i`-th key is the `i`-th symbol's quote key. */
  lemma QuoteKeyAt(symbols: seq<string>, i: nat)
    requires i < |symbols|
    ensures QuoteKeys(symbols)[i] == QuoteKey(symbols[i])
  {
    MapAt(QuoteKey, symbols, i);
  }

  /** Distinct symbols have distinct quote keys. */
  lemma QuoteKeysDistinct(symbols: seq<string>)
    requires NoDup(symbols)
    ensures NoDup(QuoteKeys(symbols))
  {
    var keys := QuoteKeys(symbols);
    forall i, j | 0 <= i < j < |keys| ensures keys[i] != keys[j] {
      QuoteKeyAt(symbols, i);
      QuoteKeyAt(symbols, j);
      SymbolKeysDistinct(QuoteEndpoint, symbols[i], symbols[j]);
    }
  }

  /** The first `k` quotes of `getMultipleQuotes(symbols)`, one `getQuote` after the other. */
  datatype QuotesOutcome = QuotesOutcome(quotes: seq<Quote>, cache: map<string, Entry>, sent: seq<Request>)

  /** `keys[i]` is the cache key of `symbols[i]` (`QuoteKeys(symbols)`). */
  function FetchQuotes(cache: map<string, Entry>, symbols: seq<string>, keys: seq<string>, k: nat, now: int,
                       doneAt: nat -> int, useMock: bool, upstream: nat -> Fetch<Quote>, mock: nat -> Quote): (o: QuotesOutcome)
    requires k <= |symbols| == |keys|
    ensures |o.quotes| == k
    ensures |o.sent| <= k && (useMock ==> o.sent == [])
    decreases k
  {
    if k == 0 then QuotesOutcome([], cache, [])
    else
      var prev := FetchQuotes(cache, symbols, keys, k - 1, now, doneAt, useMock, upstream, mock);
      var step := FetchQuote(prev.cache, keys[k - 1], symbols[k - 1], now, doneAt(k - 1), useMock, upstream(k - 1), mock(k - 1));
      QuotesOutcome(prev.quotes + [step.quote], step.cache, prev.sent + step.sent)
  }

  /** The `k`-th call starts on the cache the first `k - 1` calls leave. */
  lemma FetchQuotesLast(cache: map<string, Entry>, symbols: seq<string>, keys: seq<string>, k: nat, now: int,
                        doneAt: nat -> int, useMock: bool, upstream: nat -> Fetch<Quote>, mock: nat -> Quote)
    requires 0 < k <= |symbols| == |keys|
    ensures var prev := FetchQuotes(cache, symbols, keys, k - 1, now, doneAt, useMock, upstream, mock);
      var step := FetchQuote(prev.cache, keys[k - 1], symbols[k - 1], now, doneAt(k - 1), useMock, upstream(k - 1), mock(k - 1));
      FetchQuotes(cache, symbols, keys, k, now, doneAt, useMock, upstream, mock)
        == QuotesOutcome(prev.quotes + [step.quote], step.cache, prev.sent + step.sent)
  {
  }

  /** Later calls do not change the quotes already returned. */
  lemma FetchQuotesEarlier(cache: map<string, Entry>, symbols: seq<string>, keys: seq<string>, k: nat, i: nat, now: int,
                           doneAt: nat -> int, useMock: bool, upstream: nat -> Fetch<Quote>, mock: nat -> Quote)
    requires i < k - 1 && k <= |symbols| == |keys|
    ensures FetchQuotes(cache, symbols, keys, k, now, doneAt, useMock, upstream, mock).quotes[i]
         == FetchQuotes(cache, symbols, keys, k - 1, now, doneAt, useMock, upstream, mock).quotes[i]
  {
  }

  /** The first `k` calls leave the entry of every key they were not asked for as it was. */
  lemma {:induction false} FetchQuotesLeavesOthers(cache: map<string, Entry>, symbols: seq<string>, keys: seq<string>,
                                                   k: nat, now: int, doneAt: nat -> int, useMock: bool,
                                                   upstream: nat -> Fetch<Quote>, mock: nat -> Quote, other: string)
    requires k <= |symbols| == |keys| && other !in keys[..k]
    ensures var o := FetchQuotes(cache, symbols, keys, k, now, doneAt, useMock, upstream, mock);
      && (other in o.cache <==> other in cache)
      && (other in cache ==> o.cache[other] == cache[other])
    decreases k
  {
    if k > 0 {
      assert keys[..k] == keys[..k - 1] + [keys[k - 1]];
      FetchQuotesLeavesOthers(cache, symbols, keys, k - 1, now, doneAt, useMock, upstream, mock, other);
      FetchQuotesLast(cache, symbols, keys, k, now, doneAt, useMock, upstream, mock);
      var prev := FetchQuotes(cache, symbols, keys, k - 1, now, doneAt, useMock, upstream, mock);
      FetchQuoteLeavesOthers(prev.cache, keys[k - 1], symbols[k - 1], now, doneAt(k - 1), useMock, upstream(k - 1), mock(k - 1), other);
    }
  }

  /**
   * For distinct symbols, the `i`-th quote is what `getQuote(symbols[i])` alone gives on the
   * starting cache (so the order the calls run in does not matter), and afterwards every
   * symbol's entry holds the quote returned for it.
   */
  lemma DistinctQuotesIndependent(cache: map<string, Entry>, symbols: seq<string>, now: int, doneAt: nat -> int,
                                  useMock: bool, upstream: nat -> Fetch<Quote>, mock: nat -> Quote)
    requires NoDup(symbols)
    ensures var o := FetchQuotes(cache, symbols, QuoteKeys(symbols), |symbols|, now, doneAt, useMock, upstream, mock);
      forall i :: 0 <= i < |symbols| ==>
        && o.quotes[i] == FetchQuote(cache, QuoteKey(symbols[i]), symbols[i], now, doneAt(i), useMock, upstream(i), mock(i)).quote
        && QuoteKey(symbols[i]) in o.cache && o.cache[QuoteKey(symbols[i])].data == QuoteData(o.quotes[i])
  {
    var keys := QuoteKeys(symbols);
    QuoteKeysDistinct(symbols);
    var o := FetchQuotes(cache, symbols, keys, |symbols|, now, doneAt, useMock, upstream, mock);
    forall i | 0 <= i < |symbols|
      ensures o.quotes[i] == FetchQuote(cache, keys[i], symbols[i], now, doneAt(i), useMock, upstream(i), mock(i)).quote
      ensures keys[i] in o.cache && o.cache[keys[i]].data == QuoteData(o.quotes[i])
      ensures keys[i] == QuoteKey(symbols[i])
    {
      QuoteKeyAt(symbols, i);
      DistinctAt(keys, i, |keys|);
      QuoteIndependentAt(cache, symbols, keys, |keys|, i, now, doneAt, useMock, upstream, mock);
      EntryHoldsQuoteAt(cache, symbols, keys, |keys|, i, now, doneAt, useMock, upstream, mock);
    }
  }

  /**
   * What `getMultipleQuotes` returns: one entry per symbol, tagged with it, and for distinct
   * symbols each entry's quote is what `getQuote` alone gives for it, and is left in the cache.
   */
  lemma TaggedQuotes(cache: map<string, Entry>, symbols: seq<string>, now: int, doneAt: nat -> int,
                     useMock: bool, upstream: nat -> Fetch<Quote>, mock: nat -> Quote)
    ensures var o := FetchQuotes(cache, symbols, QuoteKeys(symbols), |symbols|, now, doneAt, useMock, upstream, mock);
      var r := TagQuotes(symbols, o.quotes);
      && |r| == |symbols|
      && (forall i :: 0 <= i < |r| ==> r[i].symbol == symbols[i])
      && (NoDup(symbols) ==> forall i :: 0 <= i < |r| ==>
            && r[i].quote == FetchQuote(cache, QuoteKey(symbols[i]), symbols[i], now, doneAt(i), useMock, upstream(i), mock(i)).quote
            && QuoteKey(symbols[i]) in o.cache && o.cache[QuoteKey(symbols[i])].data == QuoteData(r[i].quote))
  {
    if NoDup(symbols) {
      DistinctQuotesIndependent(cache, symbols, now, doneAt, useMock, upstream, mock);
    }
  }

  /** In a duplicate-free list, the `i`-th element occurs neither before nor after position `i`. */
  lemma DistinctAt(keys: seq<string>, i: nat, k: nat)
    requires i < k <= |keys| && NoDup(keys)
    ensures keys[i] !in keys[..i] && keys[i] !in keys[i + 1..k]
  {
  }

  lemma {:induction false} QuoteIndependentAt(cache: map<string, Entry>, symbols: seq<string>, keys: seq<string>, k: nat,
                                              i: nat, now: int, doneAt: nat -> int, useMock: bool,
                                              upstream: nat -> Fetch<Quote>, mock: nat -> Quote)
    requires i < k <= |symbols| == |keys| && keys[i] !in keys[..i]
    ensures FetchQuotes(cache, symbols, keys, k, now, doneAt, useMock, upstream, mock).quotes[i]
         == FetchQuote(cache, keys[i], symbols[i], now, doneAt(i), useMock, upstream(i), mock(i)).quote
    decreases k
  {
    if i == k - 1 {
      LastQuoteIndependent(cache, symbols, keys, k, now, doneAt, useMock, upstream, mock);
    } else {
      QuoteIndependentAt(cache, symbols, keys, k - 1, i, now, doneAt, useMock, upstream, mock);
      FetchQuotesEarlier(cache, symbols, keys, k, i, now, doneAt, useMock, upstream, mock);
    }
  }

  /** The `k`-th call sees its key's entry as the starting cache holds it, so it returns the same quote. */
  lemma LastQuoteIndependent(cache: map<string, Entry>, symbols: seq<string>, keys: seq<string>, k: nat, now: int,
                             doneAt: nat -> int, useMock: bool, upstream: nat -> Fetch<Quote>, mock: nat -> Quote)
    requires 0 < k <= |symbols| == |keys| && keys[k - 1] !in keys[..k - 1]
    ensures FetchQuotes(cache, symbols, keys, k, now, doneAt, useMock, upstream, mock).quotes[k - 1]
         == FetchQuote(cache, keys[k - 1], symbols[k - 1], now, doneAt(k - 1), useMock, upstream(k - 1), mock(k - 1)).quote
  {
    FetchQuotesLeavesOthers(cache, symbols, keys, k - 1, now, doneAt, useMock, upstream, mock, keys[k - 1]);
    var prev := FetchQuotes(cache, symbols, keys, k - 1, now, doneAt, useMock, upstream, mock);
    FetchQuoteLocal(prev.cache, cache, keys[k - 1], symbols[k - 1], now, doneAt(k - 1), useMock, upstream(k - 1), mock(k - 1));
    FetchQuotesLast(cache, symbols, keys, k, now, doneAt, useMock, upstream, mock);
  }

  lemma {:induction false} EntryHoldsQuoteAt(cache: map<string, Entry>, symbols: seq<string>, keys: seq<string>, k: nat,
                                             i: nat, now: int, doneAt: nat -> int, useMock: bool,
                                             upstream: nat -> Fetch<Quote>, mock: nat -> Quote)
    requires i < k <= |symbols| == |keys| && keys[i] !in keys[i + 1..k]
    ensures var o := FetchQuotes(cache, symbols, keys, k, now, doneAt, useMock, upstream, mock);
      keys[i] in o.cache && o.cache[keys[i]].data == QuoteData(o.quotes[i])
    decreases k
  {
    FetchQuotesLast(cache, symbols, keys, k, now, doneAt, useMock, upstream, mock);
    if i < k - 1 {
      assert keys[i + 1..k] == keys[i + 1..k - 1] + [keys[k - 1]];
      EntryHoldsQuoteAt(cache, symbols, keys, k - 1, i, now, doneAt, useMock, upstream, mock);
      var prev := FetchQuotes(cache, symbols, keys, k - 1, now, doneAt, useMock, upstream, mock);
      FetchQuoteLeavesOthers(prev.cache, keys[k - 1], symbols[k - 1], now, doneAt(k - 1), useMock, upstream(k - 1), mock(k - 1), keys[i]);
      FetchQuotesEarlier(cache, symbols, keys, k, i, now, doneAt, useMock, upstream, mock);
    }
  }

  // ---------------------------------------------------------------- the client

  class FinnhubClient {
    /** No API key is configured, or it is 'demo'. */
    const useMockData: bool
    var cache: map<string, Entry>
    /** The upstream GETs issued, in order. */
    var requests: seq<Request>

    /** Every entry holds the kind of data its key's endpoint serves. */
    ghost predicate Valid()
      reads this
    {
      forall k :: k in cache ==> Serves(EndpointOf(k), cache[k].data)
    }

    constructor (apiKey: Option<string>)
      ensures useMockData <==> apiKey == None || apiKey == Some("") || apiKey == Some("demo")
      ensures cache == map[] && requests == []
      ensures Valid()
    {
      useMockData := apiKey == None || apiKey == Some("") || apiKey == Some("demo");
      cache := map[];
      requests := [];
    }

    /** `setCache(key, data)` at time `now`. */
    method SetCache(key: string, data: Data, now: int)
      modifies this`cache
      ensures cache == old(cache)[key := Entry(data, now)]
    {
      cache := cache[key := Entry(data, now)];
    }

    /**
     * `getQuote(symbol)`: the cache check happens at `now`; `upstream` is the awaited
     * response, which completes at `doneAt`; `mock` is what `generateMockQuote` draws.
     */
    method GetQuote(symbol: string, now: int, doneAt: int, upstream: Fetch<Quote>, mock: Quote) returns (q: Quote)
      requires Valid()
      modifies this`cache, this`requests
      ensures Valid()
      ensures var o := FetchQuote(old(cache), QuoteKey(symbol), symbol, now, doneAt, useMockData, upstream, mock);
        q == o.quote && cache == o.cache && requests == old(requests) + o.sent
    {
      var key := QuoteKey(symbol);
      EndpointOfKey(QuoteEndpoint, SymbolParams(symbol));
      var cached := FromCache(cache, key, now);
      if cached.Some? {
        return cached.value.quote;
      }
      if useMockData {
        q := mock;
        SetCache(key, QuoteData(q), now);
      } else {
        requests := requests + [Request(QuoteEndpoint, SymbolParams(symbol))];
        q := if ValidQuote(upstream) then upstream.body else mock;
        SetCache(key, QuoteData(q), doneAt);
      }
    }

    /** `getProfile(symbol)`; `marketCap` is the mock's random market capitalisation. */
    method GetProfile(symbol: string, now: int, doneAt: int, upstream: Fetch<Profile>, marketCap: int) returns (p: Profile)
      requires Valid()
      modifies this`cache, this`requests
      ensures Valid()
      ensures FromCache(old(cache), ProfileKey(symbol), now).Some? ==>
        && old(cache)[ProfileKey(symbol)].data == ProfileData(p)
        && cache == old(cache) && requests == old(requests)
      ensures FromCache(old(cache), ProfileKey(symbol), now).None? ==>
        && p == (if !useMockData && ValidProfile(upstream) then upstream.body else MockProfile(symbol, marketCap))
        && cache == old(cache)[ProfileKey(symbol) := Entry(ProfileData(p), if useMockData then now else doneAt)]
        && requests == old(requests) + (if useMockData then [] else [Request(ProfileEndpoint, SymbolParams(symbol))])
    {
      var key := ProfileKey(symbol);
      EndpointOfKey(ProfileEndpoint, SymbolParams(symbol));
      var cached := FromCache(cache, key, now);
      if cached.Some? {
        return cached.value.profile;
      }
      if useMockData {
        p := MockProfile(symbol, marketCap);
        SetCache(key, ProfileData(p), now);
      } else {
        requests := requests + [Request(ProfileEndpoint, SymbolParams(symbol))];
        p := if ValidProfile(upstream) then upstream.body else MockProfile(symbol, marketCap);
        SetCache(key, ProfileData(p), doneAt);
      }
    }

    /** `getMarketNews(category)`; `None` is the `null` an empty body yields. */
    method GetMarketNews(category: string, now: int, doneAt: int, upstream: Fetch<seq<Article>>)
      returns (news: Option<seq<Article>>)
      requires Valid()
      modifies this`cache, this`requests
      ensures Valid()
      ensures FromCache(old(cache), NewsKey(category), now).Some? ==>
        && news.Some? && old(cache)[NewsKey(category)].data == NewsData(news.value)
        && cache == old(cache) && requests == old(requests)
      ensures FromCache(old(cache), NewsKey(category), now).None? && useMockData ==>
        news == Some([]) && cache == old(cache) && requests == old(requests)
      ensures FromCache(old(cache), NewsKey(category), now).None? && !useMockData ==>
        && requests == old(requests) + [Request(NewsEndpoint, CategoryParams(category))]
        && match upstream
           case Ok(body) => news == Some(body) && cache == old(cache)[NewsKey(category) := Entry(NewsData(body), doneAt)]
           case NoBody => news == None && cache == old(cache)[NewsKey(category) := Entry(NullData, doneAt)]
           case Failed => news == Some([]) && cache == old(cache)
    {
      var key := NewsKey(category);
      EndpointOfKey(NewsEndpoint, CategoryParams(category));
      var cached := FromCache(cache, key, now);
      if cached.Some? {
        return Some(cached.value.articles);
      }
      if useMockData {
        return Some([]);
      }
      requests := requests + [Request(NewsEndpoint, CategoryParams(category))];
      match upstream {
        case Ok(body) =>
          SetCache(key, NewsData(body), doneAt);
          news := Some(body);
        case NoBody =>
          SetCache(key, NullData, doneAt);
          news := None;
        case Failed =>
          news := Some([]);
      }
    }

    /** `getCandles(symbol, resolution, from, to)`; `sample` gives the mock's random draws. */
    method GetCandles(symbol: string, resolution: string, from: int, to: int, now: int, doneAt: int,
                      upstream: Fetch<Candles>, sample: nat -> Bar) returns (candles: Candles)
      requires Valid()
      modifies this`cache, this`requests
      ensures Valid()
      ensures FromCache(old(cache), CandlesKey(symbol, resolution, from, to), now).Some? ==>
        && old(cache)[CandlesKey(symbol, resolution, from, to)].data == CandleData(candles)
        && cache == old(cache) && requests == old(requests)
      ensures FromCache(old(cache), CandlesKey(symbol, resolution, from, to), now).None? ==>
        && candles == (if useMockData then MockCandles(MockDays(from, to), now / 1000, sample)
                       else if ValidCandles(upstream) then upstream.body
                       else MockCandles(MockDays(from, to), doneAt / 1000, sample))
        && cache == old(cache)[CandlesKey(symbol, resolution, from, to) :=
                                 Entry(CandleData(candles), if useMockData then now else doneAt)]
        && requests == old(requests) + (if useMockData then [] else [Request(CandlesEndpoint, CandleParams(symbol, resolution, from, to))])
    {
      var key := CandlesKey(symbol, resolution, from, to);
      EndpointOfKey(CandlesEndpoint, CandleParams(symbol, resolution, from, to));
      var cached := FromCache(cache, key, now);
      if cached.Some? {
        return cached.value.candles;
      }
      if useMockData {
        candles := GenerateMockCandles(MockDays(from, to), now, sample);
        SetCache(key, CandleData(candles), now);
      } else {
        requests := requests + [Request(CandlesEndpoint, CandleParams(symbol, resolution, from, to))];
        if ValidCandles(upstream) {
          candles := upstream.body;
        } else {
          candles := GenerateMockCandles(MockDays(from, to), doneAt, sample);
        }
        SetCache(key, CandleData(candles), doneAt);
      }
    }

    /** The `i`-th `getQuote` of `getMultipleQuotes`: it continues the calls made so far. */
    method NextQuote(symbols: seq<string>, ghost keys: seq<string>, i: nat, now: int, doneAt: nat -> int,
                     upstream: nat -> Fetch<Quote>, mock: nat -> Quote,
                     ghost start: map<string, Entry>, ghost sent: seq<Request>) returns (q: Quote)
      requires Valid() && i < |symbols| && keys == QuoteKeys(symbols)
      requires var o := FetchQuotes(start, symbols, keys, i, now, doneAt, useMockData, upstream, mock);
        cache == o.cache && requests == sent + o.sent
      modifies this`cache, this`requests
      ensures Valid()
      ensures var prev := FetchQuotes(start, symbols, keys, i, now, doneAt, useMockData, upstream, mock);
        var o := FetchQuotes(start, symbols, keys, i + 1, now, doneAt, useMockData, upstream, mock);
        o.quotes == prev.quotes + [q] && cache == o.cache && requests == sent + o.sent
    {
      ghost var prev := FetchQuotes(start, symbols, keys, i, now, doneAt, useMockData, upstream, mock);
      FetchQuotesLast(start, symbols, keys, i + 1, now, doneAt, useMockData, upstream, mock);
      QuoteKeyAt(symbols, i);
      q := GetQuote(symbols[i], now, doneAt(i), upstream(i), mock(i));
      ghost var step := FetchQuote(prev.cache, keys[i], symbols[i], now, doneAt(i), useMockData, upstream(i), mock(i));
      assert q == step.quote && cache == step.cache && requests == sent + prev.sent + step.sent;
    }

    /** The loop of `getMultipleQuotes`: `getQuote` for each symbol in turn. */
    method QuoteEach(symbols: seq<string>, ghost keys: seq<string>, now: int, doneAt: nat -> int,
                     upstream: nat -> Fetch<Quote>, mock: nat -> Quote) returns (results: seq<Quote>)
      requires Valid() && keys == QuoteKeys(symbols)
      modifies this`cache, this`requests
      ensures Valid()
      ensures var o := FetchQuotes(old(cache), symbols, keys, |symbols|, now, doneAt, useMockData, upstream, mock);
        results == o.quotes && cache == o.cache && requests == old(requests) + o.sent
    {
      results := [];
      var i := 0;
      while i < |symbols|
        invariant 0 <= i <= |symbols|
        invariant Valid()
        invariant var o := FetchQuotes(old(cache), symbols, keys, i, now, doneAt, useMockData, upstream, mock);
          results == o.quotes && cache == o.cache && requests == old(requests) + o.sent
      {
        var q := NextQuote(symbols, keys, i, now, doneAt, upstream, mock, old(cache), old(requests));
        results := results + [q];
        i := i + 1;
      }
    }

    /**
     * `getMultipleQuotes(symbols)`, one `getQuote` after the other; `upstream(i)`, `mock(i)` and
     * `doneAt(i)` (when its response arrives) belong to the `i`-th symbol.  One tagged quote per
     * symbol, in input order.
     */
    method GetMultipleQuotes(symbols: seq<string>, now: int, doneAt: nat -> int,
                             upstream: nat -> Fetch<Quote>, mock: nat -> Quote) returns (r: seq<Tagged>)
      requires Valid()
      modifies this`cache, this`requests
      ensures Valid()
      ensures var o := FetchQuotes(old(cache), symbols, QuoteKeys(symbols), |symbols|, now, doneAt, useMockData, upstream, mock);
        r == TagQuotes(symbols, o.quotes) && cache == o.cache && requests == old(requests) + o.sent
      ensures |r| == |symbols|
      ensures forall i :: 0 <= i < |r| ==> r[i].symbol == symbols[i]
      ensures NoDup(symbols) ==> forall i :: 0 <= i < |r| ==>
        && r[i].quote == FetchQuote(old(cache), QuoteKey(symbols[i]), symbols[i], now, doneAt(i), useMockData, upstream(i), mock(i)).quote
        && QuoteKey(symbols[i]) in cache && cache[QuoteKey(symbols[i])].data == QuoteData(r[i].quote)
      ensures useMockData ==> requests == old(requests)
      ensures |requests| <= |old(requests)| + |symbols|
    {
      ghost var keys := QuoteKeys(symbols);
      var results := QuoteEach(symbols, keys, now, doneAt, upstream, mock);
      r := TagQuotes(symbols, results);
      TaggedQuotes(old(cache), symbols, now, doneAt, useMockData, upstream, mock);
    }
  }
}
