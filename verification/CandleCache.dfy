/** Daily candles: the response parser, and the cache that prints candles and parses
    them back. A JSON text is its value; printing and reading JSON are inverse. */
module CandleCache {
  import opened Basics
  import opened Text
  import opened Leases
  import opened JobPayloads

  datatype Candle = Candle(
    stockCode: string,
    tradingDate: string,
    openPrice: string,
    highPrice: string,
    lowPrice: string,
    closePrice: string,
    volume: int)

  // ---------------------------------------------------------------- decimals

  /** What Unicode says about digits: `isdigit` accepts the decimal digits of all
      scripts and some others, such as superscripts; `int` knows the value of the
      former and refuses the latter. All below holds for any such table. */
  datatype Digits = Digits(decimals: map<char, nat>, others: set<char>)

  ghost predicate IsTable(d: Digits) {
    && (forall n: nat :: n < 10 ==> Digit(n) in d.decimals && d.decimals[Digit(n)] == n)
    && (forall c :: c in d.decimals ==> d.decimals[c] < 10 && c !in d.others && c != '-')
    && '-' !in d.others
  }

  /** The interpreter refuses to convert longer decimal texts, in either direction. */
  const MAX_DIGITS: nat := 4300

  predicate IsDigits(d: Digits, s: string) {
    s != "" && forall i :: 0 <= i < |s| ==> s[i] in d.decimals || s[i] in d.others
  }

  predicate IsDecimal(d: Digits, s: string) {
    forall i :: 0 <= i < |s| ==> s[i] in d.decimals
  }

  function Digit(n: nat): char {
    if n < 10 then (n + '0' as int) as char else '0'
  }

  /** Decimal digits without leading zeros. */
  function Print(n: nat): string {
    if n < 10 then [Digit(n)] else Print(n / 10) + [Digit(n % 10)]
  }

  function PrintInt(n: int): string {
    if n < 0 then "-" + Print(-n) else Print(n)
  }

  function ParseDigits(d: Digits, s: string): nat
    requires IsDecimal(d, s)
  {
    if s == "" then 0 else 10 * ParseDigits(d, s[..|s| - 1]) + d.decimals[s[|s| - 1]]
  }

  /** `int(s)` for a text that `isdigit` accepts; `None` where it raises. */
  function Number(d: Digits, s: string): Option<nat> {
    if IsDecimal(d, s) && |s| <= MAX_DIGITS then Some(ParseDigits(d, s)) else None
  }

  lemma {:induction false} ParsePrint(d: Digits, n: nat)
    requires IsTable(d)
    ensures Print(n) != "" && IsDecimal(d, Print(n)) && ParseDigits(d, Print(n)) == n
  {
    var s := Print(n);
    if n >= 10 {
      ParsePrint(d, n / 10);
      assert s[..|s| - 1] == Print(n / 10) && s[|s| - 1] == Digit(n % 10);
    } else {
      assert s[..0] == "" && s[0] == Digit(n);
    }
  }

  function Pow10(n: nat): (p: nat)
    ensures p >= 1
  {
    if n == 0 then 1 else 10 * Pow10(n - 1)
  }

  lemma {:induction false} ParseBound(d: Digits, s: string)
    requires IsTable(d) && IsDecimal(d, s)
    ensures ParseDigits(d, s) < Pow10(|s|)
  {
    if s != "" {
      ParseBound(d, s[..|s| - 1]);
    }
  }

  lemma {:induction false} PrintLength(n: nat, k: nat)
    requires k >= 1 && n < Pow10(k)
    ensures |Print(n)| <= k
  {
    if n >= 10 {
      assert Pow10(1) == 10;
      PrintLength(n / 10, k - 1);
    }
  }

  /** Reading digits is positional, digit by digit the value the table gives. */
  lemma {:induction false} ParseConcat(d: Digits, a: string, b: string)
    requires IsDecimal(d, a) && IsDecimal(d, b)
    ensures IsDecimal(d, a + b) && ParseDigits(d, a + b) == ParseDigits(d, a) * Pow10(|b|) + ParseDigits(d, b)
    ensures |b| == 1 ==> ParseDigits(d, b) == d.decimals[b[0]]
  {
    if b == "" {
      assert a + b == a;
    } else {
      var n := |b| - 1;
      ParseConcat(d, a, b[..n]);
      assert (a + b)[..|a + b| - 1] == a + b[..n];
    }
  }

  /** `int` takes exactly the decimal texts of at most 4300 digits. */
  lemma NumberIff(d: Digits, s: string)
    ensures Number(d, s).Some? <==> (forall i :: 0 <= i < |s| ==> s[i] in d.decimals) && |s| <= 4300
    ensures Number(d, s).Some? ==> Number(d, s).value == ParseDigits(d, s)
  {
  }

  /** Printing what was parsed is never longer than the text it was parsed from. */
  lemma PrintParsed(d: Digits, s: string)
    requires IsTable(d) && s != "" && Number(d, s).Some?
    ensures |Print(Number(d, s).value)| <= |s|
  {
    ParseBound(d, s);
    PrintLength(Number(d, s).value, |s|);
  }

  // ------------------------------------------------------------------ parser

  /** `Malformed` is the client's own error, `Crashed` the one `int` raises. */
  datatype Parsed<+T> = Good(value: T) | Malformed | Crashed

  const DATE := "stck_bsop_date"
  const OPEN := "stck_oprc"
  const HIGH := "stck_hgpr"
  const LOW := "stck_lwpr"
  const CLOSE := "stck_clpr"
  const VOLUME := "acml_vol"

  /** The non-empty text in a field, or "" where there is none. */
  function TextIn(item: map<string, Value>, field: string): string {
    if field in item && item[field].Str? then item[field].s else ""
  }

  function ParseItem(d: Digits, stockCode: string, item: Value): Parsed<Candle> {
    if !item.Object? then Malformed
    else
      var f := item.fields;
      var date, open, high, low, close, volume :=
        TextIn(f, DATE), TextIn(f, OPEN), TextIn(f, HIGH), TextIn(f, LOW), TextIn(f, CLOSE), TextIn(f, VOLUME);
      if date == "" || open == "" || high == "" || low == "" || close == "" || volume == "" then Malformed
      else if |date| != 8 || !IsDigits(d, date) || !IsDigits(d, volume) then Malformed
      else
        match Number(d, volume)
        case None => Crashed
        case Some(n) => Good(Candle(stockCode, date, open, high, low, close, n))
  }

  /** All items, or the failure of the first bad one. */
  function ParseItems(d: Digits, stockCode: string, items: seq<Value>): Parsed<seq<Candle>> {
    if items == [] then Good([])
    else
      var n := |items| - 1;
      match ParseItems(d, stockCode, items[..n])
      case Malformed => Malformed
      case Crashed => Crashed
      case Good(candles) =>
        match ParseItem(d, stockCode, items[n])
        case Malformed => Malformed
        case Crashed => Crashed
        case Good(candle) => Good(candles + [candle])
  }

  /** The items of a response that the parser looks at: HTTP success, an object with
      `rt_cd` "0" and an `output` list. `None` stands for a body that is no JSON. */
  function OutputOf(status: int, payload: Option<Value>): Option<seq<Value>> {
    if !(200 <= status < 300) || payload.None? || !payload.value.Object? then None
    else
      var f := payload.value.fields;
      if "rt_cd" !in f || f["rt_cd"] != Str("0") || "output" !in f || !f["output"].List? then None
      else Some(f["output"].items)
  }

  function ParseResponse(d: Digits, stockCode: string, status: int, payload: Option<Value>): Parsed<seq<Candle>> {
    match OutputOf(status, payload)
    case None => Malformed
    case Some(items) => ParseItems(d, stockCode, items)
  }

  // -------------------------------------------------- what the parser accepts

  /** The item is an object with this text, which is not empty, in the field. */
  ghost predicate HasText(item: Value, field: string, text: string) {
    item.Object? && field in item.fields && item.fields[field] == Str(text) && text != ""
  }

  /** The item carries the fields of `c`, and `volume` as the text of its volume. */
  ghost predicate Carries(d: Digits, item: Value, c: Candle, volume: string) {
    && HasText(item, "stck_bsop_date", c.tradingDate)
    && HasText(item, "stck_oprc", c.openPrice)
    && HasText(item, "stck_hgpr", c.highPrice)
    && HasText(item, "stck_lwpr", c.lowPrice)
    && HasText(item, "stck_clpr", c.closePrice)
    && HasText(item, "acml_vol", volume)
    && |c.tradingDate| == 8
    && IsDigits(d, c.tradingDate)
    && IsDigits(d, volume)
  }

  ghost predicate IsCandle(d: Digits, stockCode: string, item: Value, c: Candle) {
    c.stockCode == stockCode && exists volume :: Carries(d, item, c, volume) && Number(d, volume) == Some(c.volume)
  }

  /** The item is complete, but `int` refuses its volume. */
  ghost predicate BadVolume(d: Digits, item: Value) {
    exists c, volume :: Carries(d, item, c, volume) && Number(d, volume).None?
  }

  ghost predicate BadShape(d: Digits, item: Value) {
    forall c, volume :: !Carries(d, item, c, volume)
  }

  lemma ItemCarries(d: Digits, item: Value, c: Candle, volume: string)
    requires Carries(d, item, c, volume)
    ensures item.Object?
    ensures var f := item.fields;
      && TextIn(f, DATE) == c.tradingDate && TextIn(f, OPEN) == c.openPrice && TextIn(f, HIGH) == c.highPrice
      && TextIn(f, LOW) == c.lowPrice && TextIn(f, CLOSE) == c.closePrice && TextIn(f, VOLUME) == volume
  {
  }

  /** An item gives a candle exactly if it carries it field by field; otherwise its
      shape is bad or `int` refuses its volume. */
  lemma ItemIff(d: Digits, stockCode: string, item: Value)
    ensures forall c :: ParseItem(d, stockCode, item) == Good(c) <==> IsCandle(d, stockCode, item, c)
    ensures ParseItem(d, stockCode, item) == Crashed <==> BadVolume(d, item)
    ensures ParseItem(d, stockCode, item) == Malformed <==> BadShape(d, item)
  {
    forall c, volume | Carries(d, item, c, volume)
      ensures ParseItem(d, stockCode, item) ==
        match Number(d, volume)
        case None => Crashed
        case Some(n) => Good(Candle(stockCode, c.tradingDate, c.openPrice, c.highPrice, c.lowPrice, c.closePrice, n))
    {
      ItemCarries(d, item, c, volume);
    }
    if ParseItem(d, stockCode, item) != Malformed {
      var f := item.fields;
      var volume := TextIn(f, VOLUME);
      var c := Candle(stockCode, TextIn(f, DATE), TextIn(f, OPEN), TextIn(f, HIGH), TextIn(f, LOW), TextIn(f, CLOSE),
                      if Number(d, volume).Some? then Number(d, volume).value else 0);
      assert Carries(d, item, c, volume);
    }
  }

  /** A success whose body is an object with `rt_cd` "0" and the list `items`. */
  ghost predicate IsOutput(status: int, payload: Option<Value>, items: seq<Value>) {
    && 200 <= status <= 299
    && payload.Some?
    && payload.value.Object?
    && "rt_cd" in payload.value.fields
    && payload.value.fields["rt_cd"] == Str("0")
    && "output" in payload.value.fields
    && payload.value.fields["output"] == List(items)
  }

  lemma OutputIff(status: int, payload: Option<Value>, items: seq<Value>)
    ensures OutputOf(status, payload) == Some(items) <==> IsOutput(status, payload, items)
  {
  }

  ghost predicate AreCandles(d: Digits, stockCode: string, items: seq<Value>, candles: seq<Candle>) {
    |candles| == |items| && forall i :: 0 <= i < |items| ==> IsCandle(d, stockCode, items[i], candles[i])
  }

  /** Item `k` is the first that gives no candle. */
  ghost predicate FirstBad(d: Digits, stockCode: string, items: seq<Value>, k: nat, candles: seq<Candle>) {
    k < |items| && AreCandles(d, stockCode, items[..k], candles) && (BadShape(d, items[k]) || BadVolume(d, items[k]))
  }

  function Failure<T, U>(p: Parsed<T>): Parsed<U>
    requires !p.Good?
  {
    if p.Malformed? then Malformed else Crashed
  }

  /** The first bad item decides how the whole response fails. */
  lemma {:induction false} FirstBadItem(d: Digits, stockCode: string, items: seq<Value>, k: nat)
    requires k < |items| && ParseItems(d, stockCode, items[..k]).Good? && !ParseItem(d, stockCode, items[k]).Good?
    ensures ParseItems(d, stockCode, items) == Failure(ParseItem(d, stockCode, items[k]))
  {
    var n := |items| - 1;
    if k < n {
      assert items[..n][..k] == items[..k];
      FirstBadItem(d, stockCode, items[..n], k);
    }
  }

  /** What the response comes to, field by field: one candle per item, in order; or the
      first bad item, or the envelope, fails it. */
  ghost predicate IsAnswer(d: Digits, stockCode: string, status: int, payload: Option<Value>, result: Parsed<seq<Candle>>) {
    match result
    case Good(candles) => exists items :: IsOutput(status, payload, items) && AreCandles(d, stockCode, items, candles)
    case Crashed =>
      exists items, k: nat, candles ::
        IsOutput(status, payload, items) && FirstBad(d, stockCode, items, k, candles) && BadVolume(d, items[k])
    case Malformed =>
      || (forall items :: !IsOutput(status, payload, items))
      || exists items, k: nat, candles ::
           IsOutput(status, payload, items) && FirstBad(d, stockCode, items, k, candles) && BadShape(d, items[k])
  }

  lemma FailedAnswer(d: Digits, stockCode: string, status: int, payload: Option<Value>, items: seq<Value>, k: nat, candles: seq<Candle>)
    requires OutputOf(status, payload) == Some(items) && k < |items| && AreCandles(d, stockCode, items[..k], candles)
    requires !ParseItem(d, stockCode, items[k]).Good?
    ensures IsAnswer(d, stockCode, status, payload, Failure(ParseItem(d, stockCode, items[k])))
  {
    OutputIff(status, payload, items);
    ItemIff(d, stockCode, items[k]);
    assert FirstBad(d, stockCode, items, k, candles);
  }

  lemma NoOutput(status: int, payload: Option<Value>)
    requires OutputOf(status, payload).None?
    ensures forall items :: !IsOutput(status, payload, items)
  {
    forall items ensures !IsOutput(status, payload, items) {
      OutputIff(status, payload, items);
    }
  }

  method ParseDailyPriceResponse(d: Digits, stockCode: string, status: int, payload: Option<Value>)
    returns (result: Parsed<seq<Candle>>)
    ensures result == ParseResponse(d, stockCode, status, payload)
    ensures IsAnswer(d, stockCode, status, payload, result)
  {
    var output := OutputOf(status, payload);
    if output.None? {
      NoOutput(status, payload);
      return Malformed;
    }
    var items := output.value;
    OutputIff(status, payload, items);
    var candles: seq<Candle> := [];
    var k := 0;
    while k < |items|
      invariant k <= |items|
      invariant ParseItems(d, stockCode, items[..k]) == Good(candles)
      invariant AreCandles(d, stockCode, items[..k], candles)
    {
      var candle := ParseItem(d, stockCode, items[k]);
      if !candle.Good? {
        FirstBadItem(d, stockCode, items, k);
        FailedAnswer(d, stockCode, status, payload, items, k, candles);
        return Failure(candle);
      }
      ItemIff(d, stockCode, items[k]);
      assert items[..k + 1] == items[..k] + [items[k]];
      assert items[..k + 1][..k] == items[..k];
      candles := candles + [candle.value];
      k := k + 1;
    }
    assert items[..k] == items;
    return Good(candles);
  }

  // ------------------------------------------------------------------- cache

  function ItemFor(c: Candle): Value {
    Object(map[
      DATE := Str(c.tradingDate),
      OPEN := Str(c.openPrice),
      HIGH := Str(c.highPrice),
      LOW := Str(c.lowPrice),
      CLOSE := Str(c.closePrice),
      VOLUME := Str(PrintInt(c.volume))])
  }

  predicate Printable(c: Candle) {
    |Print(if c.volume < 0 then -c.volume else c.volume)| <= MAX_DIGITS
  }

  /** The text written to the cache; `None` where printing a volume raises. */
  function Written(candles: seq<Candle>): Option<Value> {
    if exists c :: c in candles && !Printable(c) then None
    else Some(List(seq(|candles|, i requires 0 <= i < |candles| => ItemFor(candles[i]))))
  }

  /** Reading wraps a cached list into a response and parses that; any error there is
      a miss. */
  function ReadBack(d: Digits, stockCode: string, cached: Value): Option<seq<Candle>> {
    if !cached.List? then None
    else
      match ParseResponse(d, stockCode, 200, Some(Object(map["rt_cd" := Str("0"), "output" := cached])))
      case Good(candles) => Some(candles)
      case _ => None
  }

  /** A candle that survives the cache. */
  predicate Storable(d: Digits, stockCode: string, c: Candle) {
    && c.stockCode == stockCode
    && |c.tradingDate| == 8 && IsDigits(d, c.tradingDate)
    && c.openPrice != "" && c.highPrice != "" && c.lowPrice != "" && c.closePrice != ""
    && c.volume >= 0
  }

  lemma PrintIntDigits(d: Digits, n: int)
    requires IsTable(d)
    ensures IsDigits(d, PrintInt(n)) <==> n >= 0
    ensures n >= 0 && |Print(n)| <= MAX_DIGITS ==> Number(d, PrintInt(n)) == Some(n)
    ensures PrintInt(n) != ""
  {
    if n >= 0 {
      ParsePrint(d, n);
    } else {
      assert PrintInt(n)[0] == '-';
    }
  }

  lemma FieldsOf(c: Candle)
    ensures var f := ItemFor(c).fields;
      && TextIn(f, DATE) == c.tradingDate && TextIn(f, OPEN) == c.openPrice && TextIn(f, HIGH) == c.highPrice
      && TextIn(f, LOW) == c.lowPrice && TextIn(f, CLOSE) == c.closePrice && TextIn(f, VOLUME) == PrintInt(c.volume)
  {
  }

  lemma ItemRoundTrip(d: Digits, stockCode: string, c: Candle)
    requires IsTable(d) && Printable(c)
    ensures ParseItem(d, stockCode, ItemFor(c)) == Good(c) <==> Storable(d, stockCode, c)
  {
    PrintIntDigits(d, c.volume);
    FieldsOf(c);
  }

  /** A list parses to `candles` exactly if its front and its last item do. */
  lemma ParsedLast(d: Digits, stockCode: string, items: seq<Value>, candles: seq<Candle>)
    requires |items| == |candles| && items != []
    ensures var n := |items| - 1;
      ParseItems(d, stockCode, items) == Good(candles) <==>
      ParseItems(d, stockCode, items[..n]) == Good(candles[..n]) && ParseItem(d, stockCode, items[n]) == Good(candles[n])
  {
    var n := |items| - 1;
    assert candles == candles[..n] + [candles[n]];
    var front, last := ParseItems(d, stockCode, items[..n]), ParseItem(d, stockCode, items[n]);
    if front.Good? && last.Good? {
      assert front.value + [last.value] == candles ==> front.value == candles[..n] && last.value == candles[n];
    }
  }

  lemma {:induction false} ItemsRoundTrip(d: Digits, stockCode: string, candles: seq<Candle>, items: seq<Value>)
    requires IsTable(d) && (forall c :: c in candles ==> Printable(c))
    requires |items| == |candles| && forall i :: 0 <= i < |items| ==> items[i] == ItemFor(candles[i])
    ensures ParseItems(d, stockCode, items) == Good(candles) <==> forall c :: c in candles ==> Storable(d, stockCode, c)
  {
    if candles != [] {
      var n := |candles| - 1;
      ParsedLast(d, stockCode, items, candles);
      ItemsRoundTrip(d, stockCode, candles[..n], items[..n]);
      ItemRoundTrip(d, stockCode, candles[n]);
      assert candles == candles[..n] + [candles[n]];
    }
  }

  lemma ReadBackParses(d: Digits, stockCode: string, cached: Value)
    requires cached.List?
    ensures ReadBack(d, stockCode, cached) ==
      if ParseItems(d, stockCode, cached.items).Good? then Some(ParseItems(d, stockCode, cached.items).value) else None
  {
    assert "rt_cd" != "output";
  }

  /** A tuple survives the cache, being written and read back the same, exactly if
      every candle is storable and has a volume short enough to print. */
  lemma CacheRoundTrip(d: Digits, stockCode: string, candles: seq<Candle>)
    requires IsTable(d)
    ensures (Written(candles).Some? && ReadBack(d, stockCode, Written(candles).value) == Some(candles))
            <==> forall c :: c in candles ==> Storable(d, stockCode, c) && |Print(c.volume)| <= 4300
  {
    if forall c :: c in candles ==> Printable(c) {
      var cached := Written(candles).value;
      ReadBackParses(d, stockCode, cached);
      ItemsRoundTrip(d, stockCode, candles, cached.items);
    }
  }

  lemma ParsedItemIsStorable(d: Digits, stockCode: string, item: Value)
    requires IsTable(d) && ParseItem(d, stockCode, item).Good?
    ensures var c := ParseItem(d, stockCode, item).value; Storable(d, stockCode, c) && Printable(c)
  {
    PrintParsed(d, TextIn(item.fields, VOLUME));
  }

  lemma {:induction false} ParsedIsStorable(d: Digits, stockCode: string, items: seq<Value>)
    requires IsTable(d) && ParseItems(d, stockCode, items).Good?
    ensures forall c :: c in ParseItems(d, stockCode, items).value ==> Storable(d, stockCode, c) && Printable(c)
  {
    if items != [] {
      var n := |items| - 1;
      ParsedIsStorable(d, stockCode, items[..n]);
      ParsedItemIsStorable(d, stockCode, items[n]);
    }
  }

  /** Whatever the parser accepts comes back from the cache unchanged. */
  lemma ParsedRoundTrip(d: Digits, stockCode: string, status: int, payload: Option<Value>)
    requires IsTable(d) && ParseResponse(d, stockCode, status, payload).Good?
    ensures var candles := ParseResponse(d, stockCode, status, payload).value;
      Written(candles).Some? && ReadBack(d, stockCode, Written(candles).value) == Some(candles)
  {
    ParsedIsStorable(d, stockCode, OutputOf(status, payload).value);
    CacheRoundTrip(d, stockCode, ParseResponse(d, stockCode, status, payload).value);
  }

  // ------------------------------------------------------ the client, as coded

  const DAILY_TTL: int := 300

  function DailyKey(stockCode: string): string {
    "market:domestic-daily:" + stockCode
  }

  /** The candles a reader of the cache gets at `now`. */
  function Cached(d: Digits, values: map<string, Timed<Value>>, stockCode: string, now: real): Option<seq<Candle>> {
    match Alive(Find(values, DailyKey(stockCode)), now)
    case None => None
    case Some(entry) => ReadBack(d, stockCode, entry.value)
  }

  /** What other keys hold does not matter. */
  lemma OtherStocks(d: Digits, m: map<string, Timed<Value>>, m': map<string, Timed<Value>>, stockCode: string, other: string, t: real)
    requires OthersKept(m, m', DailyKey(stockCode)) && other != stockCode
    ensures Cached(d, m', other, t) == Cached(d, m, other, t)
  {
    assert DailyKey(other)[|"market:domestic-daily:"|..] == other && DailyKey(stockCode)[|"market:domestic-daily:"|..] == stockCode;
    assert Find(m, DailyKey(other)) == Find(m', DailyKey(other));
  }

  datatype Fetched = BadCode | Unusable | ValueError | Candles(candles: seq<Candle>)

  class KisMarketDataClient {
    const cache: FakeKeyValueStoreClient<Value>
    const d: Digits

    constructor (cache: FakeKeyValueStoreClient<Value>, d: Digits)
      ensures this.cache == cache && this.d == d
    {
      this.cache := cache;
      this.d := d;
    }

    method ReadCachedDailyCandles(stockCode: string, now: real) returns (result: Option<seq<Candle>>)
      modifies cache
      ensures result == Cached(d, old(cache.values), stockCode, now)
      ensures result.Some? ==>
        forall t :: t >= now ==> Cached(d, cache.values, stockCode, t) == Cached(d, old(cache.values), stockCode, t)
      ensures OthersKept(old(cache.values), cache.values, DailyKey(stockCode))
    {
      var got := cache.Get(DailyKey(stockCode), now);
      var value := got.value;
      if value.None? || !value.value.List? {
        return None;
      }
      var parsed := ParseDailyPriceResponse(d, stockCode, 200, Some(Object(map["rt_cd" := Str("0"), "output" := value.value])));
      return if parsed.Good? then Some(parsed.value) else None;
    }

    /** Candles the provider gave are served again, the same, for five minutes. */
    method GetDomesticDailyCandles(stockCode: string, now: real, status: int, payload: Option<Value>) returns (answer: Fetched)
      requires IsTable(d)
      modifies cache
      ensures answer == BadCode <==> !IsStockCode(stockCode)
      ensures IsStockCode(stockCode) ==>
        var cached := Cached(d, old(cache.values), stockCode, now);
        var parsed := ParseResponse(d, stockCode, status, payload);
        && answer == (if cached.Some? then Candles(cached.value)
                      else if parsed.Good? then Candles(parsed.value)
                      else if parsed.Crashed? then ValueError
                      else Unusable)
        && (cached.None? && parsed.Good? ==>
              && (forall t :: now <= t < now + 300.0 ==> Cached(d, cache.values, stockCode, t) == Some(parsed.value))
              && (forall t :: t >= now + 300.0 ==> Cached(d, cache.values, stockCode, t) == None))
      ensures forall other, t :: other != stockCode ==> Cached(d, cache.values, other, t) == Cached(d, old(cache.values), other, t)
    {
      if !IsStockCode(stockCode) {
        return BadCode;
      }
      var cached := ReadCachedDailyCandles(stockCode, now);
      forall other, t | other != stockCode ensures Cached(d, cache.values, other, t) == Cached(d, old(cache.values), other, t) {
        OtherStocks(d, old(cache.values), cache.values, stockCode, other, t);
      }
      if cached.Some? {
        return Candles(cached.value);
      }
      var parsed := ParseDailyPriceResponse(d, stockCode, status, payload);
      if parsed.Crashed? {
        return ValueError;
      }
      if parsed.Malformed? {
        return Unusable;
      }
      ParsedRoundTrip(d, stockCode, status, payload);
      ghost var before := cache.values;
      var _ := cache.Set(DailyKey(stockCode), Written(parsed.value).value, Some(DAILY_TTL), now);
      forall other, t | other != stockCode ensures Cached(d, cache.values, other, t) == Cached(d, before, other, t) {
        OtherStocks(d, before, cache.values, stockCode, other, t);
      }
      return Candles(parsed.value);
    }
  }
}
