/**
  Exchange rates: a chain of providers behind a cache with a time to live.
  What providers and the forex chain answer, and the clock, are parameters of each call; a call reads the clock once.
  Currency codes are in upper case.
*/
module Rates {
  import opened Basics
  import opened Decimals

  /** Five minutes, in nanoseconds. */
  const STALE_FOR := 300_000_000_000

  predicate IsStablecoin(crypto: string) {
    crypto in {"USDT", "USDC", "BUSD", "DAI"}
  }

  predicate IsSupportedFiat(fiat: string) {
    fiat in {
      "USD", "EUR", "JPY", "INR", "CAD", "CNY", "IDR", "KRW", "PHP", "RUB",
      "MXN", "PLN", "TRY", "VND", "ARS", "PEN", "CLP", "NGN", "AED", "BHD",
      "CRC", "KWD", "MAD", "MYR", "QAR", "SAR", "SGD", "TND", "TWD", "GHS",
      "KES", "BOB", "XOF", "PKR", "NZD", "ISK", "BAM", "TZS", "EGP", "LKR",
      "UGX", "KZT", "BDT", "UAH", "GEL", "MNT", "GTQ", "KGS", "ZAR", "TMT",
      "ZMW", "TJS", "MRU", "TTD", "GMD", "MGA", "JMD", "NIO", "HNL", "MZN",
      "XAF", "RWF", "GNF", "BWP", "KMF", "LSL", "ERN", "BIF", "MWK", "PGK"}
  }

  lemma FiatHasNoColon(fiat: string)
    requires IsSupportedFiat(fiat)
    ensures ':' !in fiat
  {
    assert |fiat| == 3;
    assert fiat[0] != ':' && fiat[1] != ':' && fiat[2] != ':';
  }

  function RateKey(crypto: string, fiat: string): string {
    crypto + ":" + fiat
  }

  /** Supported fiat codes have no colon, so a cache key belongs to one pair only. */
  lemma KeysDiffer(crypto: string, fiat: string, crypto': string, fiat': string)
    requires IsSupportedFiat(fiat) && IsSupportedFiat(fiat') && RateKey(crypto, fiat) == RateKey(crypto', fiat')
    ensures crypto == crypto' && fiat == fiat'
  {
    FiatHasNoColon(fiat);
    FiatHasNoColon(fiat');
    KeySplits(crypto, fiat, crypto', fiat');
  }

  // ---- The cache --------------------------------------------------------------------------------------------

  /** A rate, when the crypto answer behind it was given, and when the forex answer was. A rate without a forex answer
      counts as answered by the forex chain when it is made; a manual rate and a stablecoin's, by all, when
      it is read. */
  datatype Quote = Quote(value: Literal, since: int, forexSince: int)

  datatype Entry = Entry(quote: Quote, cached: int)

  type Entries = map<string, Entry>

  /** The entry under the key if it is at most `limit` old. */
  function Lookup(entries: Entries, key: string, now: int, limit: int): Option<Quote> {
    if key in entries && now - entries[key].cached <= limit then Some(entries[key].quote) else None
  }

  function Put(entries: Entries, key: string, quote: Quote, now: int): Entries {
    entries[key := Entry(quote, now)]
  }

  class Cache {
    var values: Entries
    const ttl: int

    constructor (ttl: int)
      ensures values == map[] && this.ttl == ttl
    {
      values := map[];
      this.ttl := ttl;
    }

    method Get(key: string, now: int) returns (quote: Option<Quote>)
      ensures quote == Lookup(values, key, now, ttl)
    {
      if key !in values { return None; }
      if now - values[key].cached > ttl { return None; }
      return Some(values[key].quote);
    }

    method Set(key: string, quote: Quote, now: int)
      modifies this`values
      ensures values == Put(old(values), key, quote, now)
    {
      values := values[key := Entry(quote, now)];
    }

    method StaleValue(key: string, now: int) returns (quote: Option<Quote>)
      ensures quote == Lookup(values, key, now, STALE_FOR)
    {
      if key !in values { return None; }
      if now - values[key].cached > STALE_FOR { return None; }
      return Some(values[key].quote);
    }
  }

  // ---- One rate ---------------------------------------------------------------------------------------------

  /** What the providers answer for the pair, then for the crypto currency in dollars, and the forex chain for dollars
      in the fiat currency. None is an error. */
  datatype Oracle = Oracle(direct: seq<Option<Literal>>, usd: seq<Option<Literal>>, forex: Option<Literal>)

  datatype Error = UnsupportedFiat | Unconvertible | NoProvider | NoConversion

  datatype Reply = Rate(quote: Quote, stale: bool) | Failed(error: Error)

  datatype Outcome = Outcome(entries: Entries, reply: Reply)

  /** Provider i answers, and none before it in line does. */
  ghost predicate AnswersFirst(answers: seq<Option<Literal>>, i: nat) {
    i < |answers| && answers[i].Some? && forall j | 0 <= j < i :: answers[j].None?
  }

  /** The first provider in line that answers. */
  function FirstOf(answers: seq<Option<Literal>>): (r: Option<Literal>)
    ensures r.None? <==> forall a | a in answers :: a.None?
    ensures forall i: nat | AnswersFirst(answers, i) :: r == answers[i]
    ensures r.Some? ==> exists i: nat :: AnswersFirst(answers, i) && r == answers[i]
  {
    if answers == [] then None else if answers[0].Some? then answers[0] else FirstOf(answers[1..])
  }

  function ToUSD(entries: Entries, ttl: int, crypto: string, now: int, usd: seq<Option<Literal>>)
    : (Entries, Option<Quote>)
  {
    var key := RateKey(crypto, "USD");
    if IsStablecoin(crypto) then (entries, Some(Quote(ONE, now, now)))
    else if Lookup(entries, key, now, ttl).Some? then (entries, Lookup(entries, key, now, ttl))
    else match FirstOf(usd)
      case None => (entries, None)
      case Some(value) => (Put(entries, key, Quote(value, now, now), now), Some(Quote(value, now, now)))
  }

  function Convert(usd: Quote, forex: Option<Literal>, now: int): Option<Quote> {
    if forex.None? then None
    else match Mul(usd.value, forex.value)
      case None => None
      case Some(value) => Some(Quote(value, usd.since, now))
  }

  function FallBack(entries: Entries, key: string, now: int, error: Error): Outcome {
    match Lookup(entries, key, now, STALE_FOR)
    case Some(quote) => Outcome(entries, Rate(quote, true))
    case None => Outcome(entries, Failed(error))
  }

  function Store(entries: Entries, key: string, quote: Quote, now: int): Outcome {
    Outcome(Put(entries, key, quote, now), Rate(quote, false))
  }

  function RateOf(entries: Entries, ttl: int, manual: map<string, Literal>, now: int, fiat: string, crypto: string,
                  oracle: Oracle): Outcome
  {
    var key := RateKey(crypto, fiat);
    if !IsSupportedFiat(fiat) then Outcome(entries, Failed(UnsupportedFiat))
    else if fiat == "USD" && IsStablecoin(crypto) then Outcome(entries, Rate(Quote(ONE, now, now), false))
    else if Lookup(entries, key, now, ttl).Some? then
      Outcome(entries, Rate(Lookup(entries, key, now, ttl).value, false))
    else if crypto in manual then
      var usd := Quote(manual[crypto], now, now);
      if fiat == "USD" then Store(entries, key, usd, now)
      else match Convert(usd, oracle.forex, now)
        case None => Outcome(entries, Failed(Unconvertible))
        case Some(quote) => Store(entries, key, quote, now)
    else if FirstOf(oracle.direct).Some? then
      Store(entries, key, Quote(FirstOf(oracle.direct).value, now, now), now)
    else
      var (entries', usd) := ToUSD(entries, ttl, crypto, now, oracle.usd);
      if usd.None? then FallBack(entries', key, now, NoProvider)
      else if fiat == "USD" then Store(entries', key, usd.value, now)
      else match Convert(usd.value, oracle.forex, now)
        case None => FallBack(entries', key, now, NoConversion)
        case Some(quote) => Store(entries', key, quote, now)
  }

  // ---- What a call replies, case by case ------------------------------------------------------------------------

  predicate Pegged(crypto: string) {
    crypto == "USDT" || crypto == "USDC" || crypto == "BUSD" || crypto == "DAI"
  }

  /** The cache has the key, not older than `limit`. */
  predicate Has(values: Entries, key: string, now: int, limit: int) {
    key in values && values[key].cached >= now - limit
  }

  /** The new rate is replied and cached. */
  predicate Quotes(before: Entries, after: Entries, key: string, quote: Quote, now: int, reply: Reply) {
    reply == Rate(quote, false) && after == before[key := Entry(quote, now)]
  }

  /** Nothing new was learnt: an entry up to five minutes old is replied as stale, or else the error. */
  predicate FallsBack(values: Entries, key: string, now: int, error: Error, reply: Reply) {
    if Has(values, key, now, 300_000_000_000) then reply == Rate(values[key].quote, true) else reply == Failed(error)
  }

  /** The rate of the crypto currency in dollars: one for a stablecoin, else a cached one, else the first answer. */
  ghost predicate Dollars(before: Entries, after: Entries, ttl: int, crypto: string, now: int,
                          usd: seq<Option<Literal>>, quote: Option<Quote>)
  {
    var key := crypto + ":USD";
    if Pegged(crypto) then quote == Some(Quote(Literal(100, 2), now, now)) && after == before
    else if Has(before, key, now, ttl) then quote == Some(before[key].quote) && after == before
    else
      && (forall i: nat | AnswersFirst(usd, i) ::
            var answer := Quote(usd[i].value, now, now);
            quote == Some(answer) && after == before[key := Entry(answer, now)])
      && ((forall a | a in usd :: a.None?) ==> quote.None? && after == before)
  }

  /** The dollar rate times the forex rate, or the error. */
  predicate Crosses(before: Entries, after: Entries, key: string, usd: Quote, forex: Option<Literal>, now: int,
                    reply: Reply)
    requires forex.Some? && Mul(usd.value, forex.value).Some?
  {
    Quotes(before, after, key, Quote(Mul(usd.value, forex.value).value, usd.since, now), now, reply)
  }

  predicate Converts(usd: Quote, forex: Option<Literal>) {
    forex.Some? && usd.value.Literal? && forex.value.Literal?
  }

  /** When no provider answers for the pair itself. */
  ghost predicate GoesThroughDollars(before: Entries, after: Entries, ttl: int, now: int, fiat: string,
                                     crypto: string, oracle: Oracle, reply: Reply)
  {
    var key := crypto + ":" + fiat;
    exists mid: Entries, usd: Option<Quote> | Dollars(before, mid, ttl, crypto, now, oracle.usd, usd) ::
      FollowsDollars(mid, after, key, now, fiat, usd, oracle.forex, reply)
  }

  /** What the dollar rate, or its absence, leads to. */
  predicate FollowsDollars(mid: Entries, after: Entries, key: string, now: int, fiat: string, usd: Option<Quote>,
                           forex: Option<Literal>, reply: Reply)
  {
    if usd.None? then after == mid && FallsBack(mid, key, now, NoProvider, reply)
    else if fiat == "USD" then Quotes(mid, after, key, usd.value, now, reply)
    else if Converts(usd.value, forex) then Crosses(mid, after, key, usd.value, forex, now, reply)
    else after == mid && FallsBack(mid, key, now, NoConversion, reply)
  }

  /** A rate that is not cached, of a currency with a manual dollar rate. */
  predicate GoesByHand(before: Entries, after: Entries, now: int, fiat: string, crypto: string, manual: Literal,
                       forex: Option<Literal>, reply: Reply)
  {
    var key, usd := crypto + ":" + fiat, Quote(manual, now, now);
    if fiat == "USD" then Quotes(before, after, key, usd, now, reply)
    else if Converts(usd, forex) then Crosses(before, after, key, usd, forex, now, reply)
    else after == before && reply == Failed(Unconvertible)
  }

  /** What GetRate does, case by case in the order of its shortcuts and fallbacks. */
  ghost predicate Replies(before: Entries, after: Entries, ttl: int, manual: map<string, Literal>, now: int,
                          fiat: string, crypto: string, oracle: Oracle, reply: Reply)
  {
    var key := crypto + ":" + fiat;
    if !IsSupportedFiat(fiat) then reply == Failed(UnsupportedFiat) && after == before
    else if fiat == "USD" && Pegged(crypto) then
      reply == Rate(Quote(Literal(100, 2), now, now), false) && after == before
    else if Has(before, key, now, ttl) then reply == Rate(before[key].quote, false) && after == before
    else if crypto in manual then
      GoesByHand(before, after, now, fiat, crypto, manual[crypto], oracle.forex, reply)
    else
      && (forall i: nat | AnswersFirst(oracle.direct, i) ::
            Quotes(before, after, key, Quote(oracle.direct[i].value, now, now), now, reply))
      && ((forall a | a in oracle.direct :: a.None?) ==>
            GoesThroughDollars(before, after, ttl, now, fiat, crypto, oracle, reply))
  }

  lemma ToUSDIsDollars(entries: Entries, ttl: int, crypto: string, now: int, usd: seq<Option<Literal>>)
    ensures var (entries', quote) := ToUSD(entries, ttl, crypto, now, usd);
            Dollars(entries, entries', ttl, crypto, now, usd, quote)
  {
    assert RateKey(crypto, "USD") == crypto + ":USD";
  }

  lemma NoDirectReplies(entries: Entries, ttl: int, manual: map<string, Literal>, now: int, fiat: string,
                        crypto: string, oracle: Oracle)
    requires IsSupportedFiat(fiat) && !(fiat == "USD" && Pegged(crypto)) && crypto !in manual
    requires !Has(entries, crypto + ":" + fiat, now, ttl) && forall a | a in oracle.direct :: a.None?
    ensures var o := RateOf(entries, ttl, manual, now, fiat, crypto, oracle);
            GoesThroughDollars(entries, o.entries, ttl, now, fiat, crypto, oracle, o.reply)
  {
    var (mid, usd) := ToUSD(entries, ttl, crypto, now, oracle.usd);
    ToUSDIsDollars(entries, ttl, crypto, now, oracle.usd);
    ViaDollarsFollows(mid, crypto + ":" + fiat, now, fiat, usd, oracle.forex);
    NoDirectIsViaDollars(entries, ttl, manual, now, fiat, crypto, oracle);
  }

  /** A rate with the dollar rate known. */
  function ViaDollars(mid: Entries, key: string, now: int, fiat: string, usd: Option<Quote>, forex: Option<Literal>)
    : Outcome
  {
    if usd.None? then FallBack(mid, key, now, NoProvider)
    else if fiat == "USD" then Store(mid, key, usd.value, now)
    else match Convert(usd.value, forex, now)
      case None => FallBack(mid, key, now, NoConversion)
      case Some(quote) => Store(mid, key, quote, now)
  }

  lemma NoDirectIsViaDollars(entries: Entries, ttl: int, manual: map<string, Literal>, now: int, fiat: string,
                             crypto: string, oracle: Oracle)
    requires IsSupportedFiat(fiat) && !(fiat == "USD" && Pegged(crypto)) && crypto !in manual
    requires !Has(entries, crypto + ":" + fiat, now, ttl) && forall a | a in oracle.direct :: a.None?
    ensures var (mid, usd) := ToUSD(entries, ttl, crypto, now, oracle.usd);
            RateOf(entries, ttl, manual, now, fiat, crypto, oracle)
            == ViaDollars(mid, crypto + ":" + fiat, now, fiat, usd, oracle.forex)
  {
  }

  lemma ViaDollarsFollows(mid: Entries, key: string, now: int, fiat: string, usd: Option<Quote>,
                          forex: Option<Literal>)
    ensures var o := ViaDollars(mid, key, now, fiat, usd, forex);
            FollowsDollars(mid, o.entries, key, now, fiat, usd, forex, o.reply)
  {
  }

  lemma RateReplies(entries: Entries, ttl: int, manual: map<string, Literal>, now: int, fiat: string, crypto: string,
                    oracle: Oracle)
    ensures var o := RateOf(entries, ttl, manual, now, fiat, crypto, oracle);
            Replies(entries, o.entries, ttl, manual, now, fiat, crypto, oracle, o.reply)
  {
    if IsSupportedFiat(fiat) && !(fiat == "USD" && Pegged(crypto)) && crypto !in manual
       && !Has(entries, crypto + ":" + fiat, now, ttl) && forall a | a in oracle.direct :: a.None?
    {
      NoDirectReplies(entries, ttl, manual, now, fiat, crypto, oracle);
    }
  }

  class Aggregator {
    const cache: Cache
    const manual: map<string, Literal>

    constructor (cache: Cache, manual: map<string, Literal>)
      ensures this.cache == cache && this.manual == manual
    {
      this.cache := cache;
      this.manual := manual;
    }

    method GetRate(now: int, fiat: string, crypto: string, oracle: Oracle) returns (reply: Reply)
      modifies cache`values
      ensures Outcome(cache.values, reply)
              == RateOf(old(cache.values), cache.ttl, manual, now, fiat, crypto, oracle)
      ensures Replies(old(cache.values), cache.values, cache.ttl, manual, now, fiat, crypto, oracle, reply)
    {
      RateReplies(cache.values, cache.ttl, manual, now, fiat, crypto, oracle);
      if !IsSupportedFiat(fiat) { return Failed(UnsupportedFiat); }
      if fiat == "USD" && IsStablecoin(crypto) { return Rate(Quote(ONE, now, now), false); }

      var key := RateKey(crypto, fiat);
      var hit := cache.Get(key, now);
      if hit.Some? { return Rate(hit.value, false); }
      if crypto in manual {
        var usd := Quote(manual[crypto], now, now);
        if fiat == "USD" {
          cache.Set(key, usd, now);
          return Rate(usd, false);
        }
        var converted := Convert(usd, oracle.forex, now);
        if converted.None? { return Failed(Unconvertible); }
        cache.Set(key, converted.value, now);
        return Rate(converted.value, false);
      }

      for i := 0 to |oracle.direct|
        invariant FirstOf(oracle.direct) == FirstOf(oracle.direct[i..])
        invariant cache.values == old(cache.values)
      {
        if oracle.direct[i].Some? {
          cache.Set(key, Quote(oracle.direct[i].value, now, now), now);
          return Rate(Quote(oracle.direct[i].value, now, now), false);
        }
      }

      var cryptoUSD := CryptoToUSD(now, crypto, oracle.usd);
      if cryptoUSD.None? {
        reply := StaleOr(key, now, NoProvider);
        return;
      }
      if fiat == "USD" {
        cache.Set(key, cryptoUSD.value, now);
        return Rate(cryptoUSD.value, false);
      }
      var converted := Convert(cryptoUSD.value, oracle.forex, now);
      if converted.None? {
        reply := StaleOr(key, now, NoConversion);
        return;
      }
      cache.Set(key, converted.value, now);
      return Rate(converted.value, false);
    }

    method CryptoToUSD(now: int, crypto: string, usd: seq<Option<Literal>>) returns (quote: Option<Quote>)
      modifies cache`values
      ensures (cache.values, quote) == ToUSD(old(cache.values), cache.ttl, crypto, now, usd)
      ensures Dollars(old(cache.values), cache.values, cache.ttl, crypto, now, usd, quote)
    {
      ToUSDIsDollars(cache.values, cache.ttl, crypto, now, usd);
      if IsStablecoin(crypto) { return Some(Quote(ONE, now, now)); }
      var key := RateKey(crypto, "USD");
      quote := cache.Get(key, now);
      if quote.Some? { return; }
      for i := 0 to |usd|
        invariant FirstOf(usd) == FirstOf(usd[i..])
        invariant cache.values == old(cache.values)
      {
        if usd[i].Some? {
          cache.Set(key, Quote(usd[i].value, now, now), now);
          return Some(Quote(usd[i].value, now, now));
        }
      }
      return None;
    }

    method StaleOr(key: string, now: int, error: Error) returns (reply: Reply)
      ensures Outcome(cache.values, reply) == FallBack(cache.values, key, now, error)
    {
      var stale := cache.StaleValue(key, now);
      if stale.Some? { return Rate(stale.value, true); }
      return Failed(error);
    }
  }

  // ---- Runs -------------------------------------------------------------------------------------------------

  datatype Call = Call(now: int, fiat: string, crypto: string, oracle: Oracle)

  /** How an aggregator is set up. */
  datatype Setup = Setup(ttl: int, manual: map<string, Literal>)

  function Ask(s: Setup, entries: Entries, call: Call): Outcome {
    RateOf(entries, s.ttl, s.manual, call.now, call.fiat, call.crypto, call.oracle)
  }

  /** The cache after the first n calls. */
  function After(s: Setup, calls: seq<Call>, n: nat): Entries
    requires n <= |calls|
  {
    if n == 0 then map[] else Ask(s, After(s, calls, n - 1), calls[n - 1]).entries
  }

  function ReplyAt(s: Setup, calls: seq<Call>, n: nat): Reply
    requires n < |calls|
  {
    Ask(s, After(s, calls, n), calls[n]).reply
  }

  // ---- Transparency -----------------------------------------------------------------------------------------

  /** Answers that do not change. */
  datatype World = World(quotes: (string, string) -> seq<Option<Literal>>, forex: string -> Option<Literal>)

  ghost predicate Steady(w: World, call: Call) {
    call.oracle == Oracle(w.quotes(call.fiat, call.crypto), w.quotes("USD", call.crypto), w.forex(call.fiat))
  }

  function Cross(usd: Literal, forex: Option<Literal>, error: Error): Result<Literal, Error> {
    if forex.None? || Mul(usd, forex.value).None? then Err(error) else Ok(Mul(usd, forex.value).value)
  }

  /** A rate without any cache. */
  ghost function Uncached(s: Setup, w: World, fiat: string, crypto: string): Result<Literal, Error> {
    if !IsSupportedFiat(fiat) then Err(UnsupportedFiat)
    else if fiat == "USD" && IsStablecoin(crypto) then Ok(ONE)
    else if crypto in s.manual then
      if fiat == "USD" then Ok(s.manual[crypto]) else Cross(s.manual[crypto], w.forex(fiat), Unconvertible)
    else if FirstOf(w.quotes(fiat, crypto)).Some? then Ok(FirstOf(w.quotes(fiat, crypto)).value)
    else
      var usd := if IsStablecoin(crypto) then Some(ONE) else FirstOf(w.quotes("USD", crypto));
      if usd.None? then Err(NoProvider)
      else if fiat == "USD" then Ok(usd.value)
      else Cross(usd.value, w.forex(fiat), NoConversion)
  }

  function Plain(reply: Reply): Result<Literal, Error> {
    if reply.Rate? then Ok(reply.quote.value) else Err(reply.error)
  }

  ghost predicate EntryIsCurrent(s: Setup, w: World, entries: Entries, fiat: string, crypto: string) {
    RateKey(crypto, fiat) in entries ==> Uncached(s, w, fiat, crypto) == Ok(entries[RateKey(crypto, fiat)].quote.value)
  }

  /** Whatever its age, an entry is what would be computed now. */
  ghost predicate Current(s: Setup, w: World, entries: Entries) {
    forall fiat, crypto :: IsSupportedFiat(fiat) ==> EntryIsCurrent(s, w, entries, fiat, crypto)
  }

  lemma PutKeepsCurrent(s: Setup, w: World, entries: Entries, fiat: string, crypto: string, quote: Quote, now: int)
    requires Current(s, w, entries) && IsSupportedFiat(fiat) && Uncached(s, w, fiat, crypto) == Ok(quote.value)
    ensures Current(s, w, Put(entries, RateKey(crypto, fiat), quote, now))
  {
    var entries' := Put(entries, RateKey(crypto, fiat), quote, now);
    forall fiat', crypto' | IsSupportedFiat(fiat') ensures EntryIsCurrent(s, w, entries', fiat', crypto') {
      assert EntryIsCurrent(s, w, entries, fiat', crypto');
      if RateKey(crypto', fiat') == RateKey(crypto, fiat) { KeysDiffer(crypto', fiat', crypto, fiat); }
    }
  }

  /** The dollar leg, which shares its entry with requests for dollars. */
  lemma DollarLegIsCurrent(s: Setup, w: World, entries: Entries, crypto: string, now: int)
    requires Current(s, w, entries) && crypto !in s.manual
    ensures var (entries', usd) := ToUSD(entries, s.ttl, crypto, now, w.quotes("USD", crypto));
            && Current(s, w, entries')
            && (usd.Some? <==> Uncached(s, w, "USD", crypto).Ok?)
            && (usd.Some? ==> Uncached(s, w, "USD", crypto) == Ok(usd.value.value))
  {
    assert EntryIsCurrent(s, w, entries, "USD", crypto);
    if !IsStablecoin(crypto) && Lookup(entries, RateKey(crypto, "USD"), now, s.ttl).None?
       && FirstOf(w.quotes("USD", crypto)).Some? {
      PutKeepsCurrent(s, w, entries, "USD", crypto, Quote(FirstOf(w.quotes("USD", crypto)).value, now, now), now);
    }
  }

  lemma AskIsTransparent(s: Setup, w: World, entries: Entries, call: Call)
    requires Current(s, w, entries) && Steady(w, call)
    ensures var o := Ask(s, entries, call);
            && Current(s, w, o.entries)
            && Plain(o.reply) == Uncached(s, w, call.fiat, call.crypto)
            && (o.reply.Rate? ==> !o.reply.stale)
  {
    var fiat, crypto, now := call.fiat, call.crypto, call.now;
    if IsSupportedFiat(fiat) {
      assert EntryIsCurrent(s, w, entries, fiat, crypto);
      var o := Ask(s, entries, call);
      if crypto !in s.manual {
        DollarLegIsCurrent(s, w, entries, crypto, now);
        var legged := ToUSD(entries, s.ttl, crypto, now, w.quotes("USD", crypto)).0;
        assert EntryIsCurrent(s, w, legged, fiat, crypto);
        if o.reply.Rate? && !o.reply.stale && Uncached(s, w, fiat, crypto) == Ok(o.reply.quote.value) {
          PutKeepsCurrent(s, w, entries, fiat, crypto, o.reply.quote, now);
          PutKeepsCurrent(s, w, legged, fiat, crypto, o.reply.quote, now);
        }
      } else if o.reply.Rate? && Uncached(s, w, fiat, crypto) == Ok(o.reply.quote.value) {
        PutKeepsCurrent(s, w, entries, fiat, crypto, o.reply.quote, now);
      }
    }
  }

  lemma {:induction false} CacheStaysCurrent(s: Setup, w: World, calls: seq<Call>, n: nat)
    requires n <= |calls| && forall i | 0 <= i < |calls| :: Steady(w, calls[i])
    ensures Current(s, w, After(s, calls, n))
  {
    if n > 0 {
      var i := n - 1;
      CacheStaysCurrent(s, w, calls, i);
      AskIsTransparent(s, w, After(s, calls, i), calls[i]);
      assert After(s, calls, i + 1) == Ask(s, After(s, calls, i), calls[i]).entries;
      assert Current(s, w, After(s, calls, i + 1));
    }
  }

  /** While answers do not change, every call replies as if there were no cache, whatever the requests before it and
      however the clock moves, and the stale fallback never serves. */
  lemma CacheIsTransparent(s: Setup, w: World, calls: seq<Call>, n: nat)
    requires n < |calls| && forall i | 0 <= i < |calls| :: Steady(w, calls[i])
    ensures Plain(ReplyAt(s, calls, n)) == Uncached(s, w, calls[n].fiat, calls[n].crypto)
    ensures ReplyAt(s, calls, n).Rate? ==> !ReplyAt(s, calls, n).stale
  {
    CacheStaysCurrent(s, w, calls, n);
    AskIsTransparent(s, w, After(s, calls, n), calls[n]);
  }

  // ---- Staleness --------------------------------------------------------------------------------------------

  predicate Ticking(calls: seq<Call>) {
    forall i, j | 0 <= i <= j < |calls| :: calls[i].now <= calls[j].now
  }

  /** When a rate is cached its crypto answer is at most a time to live old, and its forex answer is new. */
  predicate EntryIsRecent(s: Setup, e: Entry, now: int) {
    e.cached <= now && e.cached - s.ttl <= e.quote.since <= e.cached && e.quote.forexSince == e.cached
  }

  /** A dollar rate is cached when it is answered. */
  predicate DollarEntry(entries: Entries, crypto: string) {
    RateKey(crypto, "USD") in entries ==>
      entries[RateKey(crypto, "USD")].quote.since == entries[RateKey(crypto, "USD")].cached
  }

  ghost predicate Recent(s: Setup, entries: Entries, now: int) {
    && (forall key | key in entries :: EntryIsRecent(s, entries[key], now))
    && (forall crypto :: DollarEntry(entries, crypto))
  }

  lemma PutKeepsRecent(s: Setup, entries: Entries, fiat: string, crypto: string, quote: Quote, now: int)
    requires Recent(s, entries, now) && IsSupportedFiat(fiat) && now - s.ttl <= quote.since <= now
    requires (fiat == "USD" ==> quote.since == now) && quote.forexSince == now
    ensures Recent(s, Put(entries, RateKey(crypto, fiat), quote, now), now)
  {
    var entries' := Put(entries, RateKey(crypto, fiat), quote, now);
    forall crypto' ensures DollarEntry(entries', crypto') {
      assert DollarEntry(entries, crypto');
      if RateKey(crypto', "USD") == RateKey(crypto, fiat) { KeysDiffer(crypto', "USD", crypto, fiat); }
    }
  }

  lemma DollarLegIsRecent(s: Setup, entries: Entries, crypto: string, now: int, answers: seq<Option<Literal>>)
    requires Recent(s, entries, now) && s.ttl >= 0
    ensures var (entries', usd) := ToUSD(entries, s.ttl, crypto, now, answers);
            && Recent(s, entries', now)
            && (usd.Some? ==> now - s.ttl <= usd.value.since <= now)
            && (usd.Some? && Lookup(entries, RateKey(crypto, "USD"), now, s.ttl).None? ==>
                  usd.value.since == now && usd.value.forexSince == now)
  {
    assert DollarEntry(entries, crypto);
    if FirstOf(answers).Some? {
      PutKeepsRecent(s, entries, "USD", crypto, Quote(FirstOf(answers).value, now, now), now);
    }
  }

  /** How old the answers behind a reply may be. */
  predicate YoungEnough(s: Setup, reply: Reply, now: int) {
    reply.Rate? ==>
      && 0 <= now - reply.quote.since <= (if reply.stale then 300_000_000_000 + s.ttl else 2 * s.ttl)
      && 0 <= now - reply.quote.forexSince <= (if reply.stale then 300_000_000_000 else s.ttl)
  }

  lemma AskIsRecent(s: Setup, entries: Entries, call: Call)
    requires Recent(s, entries, call.now) && s.ttl >= 0
    ensures YoungEnough(s, Ask(s, entries, call).reply, call.now)
  {
    DollarLegIsRecent(s, entries, call.crypto, call.now, call.oracle.usd);
  }

  lemma AskKeepsRecent(s: Setup, entries: Entries, call: Call)
    requires Recent(s, entries, call.now) && s.ttl >= 0
    ensures Recent(s, Ask(s, entries, call).entries, call.now)
  {
    var fiat, crypto, now := call.fiat, call.crypto, call.now;
    if IsSupportedFiat(fiat) {
      var o := Ask(s, entries, call);
      DollarLegIsRecent(s, entries, crypto, now, call.oracle.usd);
      var legged := ToUSD(entries, s.ttl, crypto, now, call.oracle.usd).0;
      if o.reply.Rate? && now - s.ttl <= o.reply.quote.since <= now && (fiat == "USD" ==> o.reply.quote.since == now)
         && o.reply.quote.forexSince == now {
        PutKeepsRecent(s, entries, fiat, crypto, o.reply.quote, now);
        PutKeepsRecent(s, legged, fiat, crypto, o.reply.quote, now);
      }
    }
  }

  lemma TimePasses(s: Setup, entries: Entries, now: int, later: int)
    requires Recent(s, entries, now) && now <= later
    ensures Recent(s, entries, later)
  {
  }

  lemma {:induction false} CacheStaysRecent(s: Setup, calls: seq<Call>, n: nat)
    requires n < |calls| && Ticking(calls) && s.ttl >= 0
    ensures Recent(s, After(s, calls, n), calls[n].now)
  {
    if n > 0 {
      CacheStaysRecent(s, calls, n - 1);
      AskKeepsRecent(s, After(s, calls, n - 1), calls[n - 1]);
      TimePasses(s, After(s, calls, n), calls[n - 1].now, calls[n].now);
    }
  }

  /** However answers change, no crypto answer behind a rate is older than two times to live and no forex answer older
      than one; when the stale fallback serves, no older than five minutes and one time to live, and five minutes. */
  lemma StalenessIsBounded(s: Setup, calls: seq<Call>, n: nat)
    requires n < |calls| && Ticking(calls) && s.ttl >= 0
    ensures YoungEnough(s, ReplyAt(s, calls, n), calls[n].now)
  {
    CacheStaysRecent(s, calls, n);
    AskIsRecent(s, After(s, calls, n), calls[n]);
  }

  const LEG := Call(0, "USD", "BTC", Oracle([Some(ONE)], [], None))

  function CrossAt(now: int): Call { Call(now, "EUR", "BTC", Oracle([], [], Some(ONE))) }

  function UnansweredAt(now: int): Call { Call(now, "EUR", "BTC", Oracle([], [], None)) }

  /** The dollar leg is asked for, and one time to live later the cross rate. */
  lemma AfterLegAndCross(ttl: int, last: Call)
    requires 0 <= ttl
    ensures After(Setup(ttl, map[]), [LEG, CrossAt(ttl), last], 2)
            == Put(Put(map[], "BTC:USD", Quote(ONE, 0, 0), 0), "BTC:EUR", Quote(Mul(ONE, ONE).value, 0, ttl), ttl)
  {
    var s, calls := Setup(ttl, map[]), [LEG, CrossAt(ttl), last];
    assert RateKey("BTC", "USD") == "BTC:USD" && RateKey("BTC", "EUR") == "BTC:EUR";
    assert FirstOf([Some(ONE)]) == Some(ONE);
    assert After(s, calls, 0) == map[];
    assert After(s, calls, 1) == Put(map[], "BTC:USD", Quote(ONE, 0, 0), 0);
  }

  /** A cross rate built on a cached dollar leg reaches all four bounds. */
  lemma BoundsAreReached(ttl: int) returns (served: seq<Call>, fallen: seq<Call>)
    requires 0 <= ttl < STALE_FOR
    ensures |served| == |fallen| == 3 && Ticking(served) && Ticking(fallen)
    ensures var s := Setup(ttl, map[]);
            var last, fallback := ReplyAt(s, served, 2), ReplyAt(s, fallen, 2);
            && last.Rate? && !last.stale && served[2].now - last.quote.since == 2 * ttl
            && served[2].now - last.quote.forexSince == ttl
            && fallback.Rate? && fallback.stale && fallen[2].now - fallback.quote.since == STALE_FOR + ttl
            && fallen[2].now - fallback.quote.forexSince == STALE_FOR
  {
    served := [LEG, CrossAt(ttl), UnansweredAt(2 * ttl)];
    fallen := [LEG, CrossAt(ttl), UnansweredAt(STALE_FOR + ttl)];
    assert RateKey("BTC", "USD") == "BTC:USD" && RateKey("BTC", "EUR") == "BTC:EUR";
    AfterLegAndCross(ttl, UnansweredAt(2 * ttl));
    AfterLegAndCross(ttl, UnansweredAt(STALE_FOR + ttl));
  }
}
