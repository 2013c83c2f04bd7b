/** The JSON payloads of durable jobs and the helpers that read them. */
module JobPayloads {
  import opened Basics
  import opened Text

  datatype Value =
    | Null
    | Bool(b: bool)
    | Int(n: int)
    | Real(r: real)
    | Str(s: string)
    | List(items: seq<Value>)
    | Object(fields: map<string, Value>)

  type Payload = map<string, Value>

  const SYMBOLS := "symbols"
  const SOURCE_KEYS := "source_keys"
  const RETRY_ATTEMPT := "_news_retry_attempt"
  const RETRY_ROOT := "_news_retry_root_run_key"
  const STOCK_CODE := "stock_code"

  const MAX_NEWS_ATTEMPTS: nat := 3

  function UpperChar(c: char): char {
    if 'a' <= c <= 'z' then (c as int - 32) as char else c
  }

  function Upper(s: string): string {
    seq(|s|, i requires 0 <= i < |s| => UpperChar(s[i]))
  }

  /** First occurrences only, in order: `list(dict.fromkeys(...))`. */
  function Dedupe(s: seq<string>): seq<string> {
    if s == [] then []
    else
      var rest := Dedupe(s[..|s| - 1]);
      if s[|s| - 1] in rest then rest else rest + [s[|s| - 1]]
  }

  /** The trimmed text of an item, put in upper case if asked; `None` for a blank text
      and for anything else. */
  function NameOf(item: Value, upper: bool): Option<string> {
    if !item.Str? || Strip(item.s) == [] then None
    else Some(if upper then Upper(Strip(item.s)) else Strip(item.s))
  }

  function Cleaned(items: seq<Value>, upper: bool): seq<string> {
    if items == [] then []
    else
      var rest, name := Cleaned(items[..|items| - 1], upper), NameOf(items[|items| - 1], upper);
      if name.Some? then rest + [name.value] else rest
  }

  function Names(payload: Payload, field: string, upper: bool): Option<seq<string>> {
    if field !in payload || !payload[field].List? then None
    else
      var names := Dedupe(Cleaned(payload[field].items, upper));
      if names == [] then None else Some(names)
  }

  /** The symbols a news collection asks for, or `None` where the helper raises. */
  function SymbolsFrom(payload: Payload): Option<seq<string>> {
    Names(payload, SYMBOLS, true)
  }

  /** The source keys a news index job names, or `None` where the helper raises. */
  function SourceKeysFrom(payload: Payload): Option<seq<string>> {
    Names(payload, SOURCE_KEYS, false)
  }

  /** A JSON true counts as attempt 1, as booleans are integers in the service. */
  function RetryAttempt(payload: Payload): nat {
    if RETRY_ATTEMPT !in payload then 0
    else
      match payload[RETRY_ATTEMPT]
      case Int(n) => if n >= 0 then n else 0
      case Bool(b) => if b then 1 else 0
      case _ => 0
  }

  function RootRunKey(runKey: string, payload: Payload): string {
    if RETRY_ROOT in payload && payload[RETRY_ROOT].Str? && payload[RETRY_ROOT].s != [] then payload[RETRY_ROOT].s
    else runKey
  }

  function Strings(names: seq<string>): Value {
    List(seq(|names|, i requires 0 <= i < |names| => Str(names[i])))
  }

  function RetryPayload(field: string, names: seq<string>, attempt: nat, root: string): Payload {
    map[field := Strings(names), RETRY_ATTEMPT := Int(attempt), RETRY_ROOT := Str(root)]
  }

  // --------------------------------------------------- normalising is stable

  lemma StripFixes(s: string)
    requires Trimmed(s)
    ensures Strip(s) == s
  {
  }

  lemma UpperTrimmed(s: string)
    requires Trimmed(s)
    ensures Trimmed(Upper(s)) && Upper(Upper(s)) == Upper(s)
  {
    assert forall c: char :: IsSpace(UpperChar(c)) ==> IsSpace(c);
  }

  /** A name that cleaning leaves as it is. */
  ghost predicate Clean(s: string, upper: bool) {
    Trimmed(s) && (upper ==> Upper(s) == s)
  }

  lemma {:induction false} CleanedIsClean(items: seq<Value>, upper: bool)
    ensures forall s :: s in Cleaned(items, upper) ==> Clean(s, upper)
  {
    if items != [] {
      CleanedIsClean(items[..|items| - 1], upper);
      var last := items[|items| - 1];
      if last.Str? && Strip(last.s) != [] {
        var _, _ := StripPads(last.s);
        UpperTrimmed(Strip(last.s));
      }
    }
  }

  lemma {:induction false} DedupeKeeps(s: seq<string>)
    ensures NoDup(Dedupe(s))
    ensures forall x :: x in Dedupe(s) <==> x in s
  {
    if s != [] {
      DedupeKeeps(s[..|s| - 1]);
      assert s == s[..|s| - 1] + [s[|s| - 1]];
    }
  }

  lemma {:induction false} DedupeFixes(s: seq<string>)
    requires NoDup(s)
    ensures Dedupe(s) == s
  {
    if s != [] {
      DedupeFixes(s[..|s| - 1]);
      assert s == s[..|s| - 1] + [s[|s| - 1]];
    }
  }

  lemma {:induction false} CleanedFixes(names: seq<string>, upper: bool)
    requires forall s :: s in names ==> Clean(s, upper)
    ensures Cleaned(Strings(names).items, upper) == names
  {
    if names != [] {
      var n := |names| - 1;
      CleanedFixes(names[..n], upper);
      assert Strings(names).items[..n] == Strings(names[..n]).items;
      assert names == names[..n] + [names[n]];
      assert names[n] in names;
      StripFixes(names[n]);
    }
  }

  lemma NamesAreClean(payload: Payload, field: string, upper: bool)
    requires Names(payload, field, upper).Some?
    ensures var names := Names(payload, field, upper).value;
      names != [] && NoDup(names) && forall s :: s in names ==> Clean(s, upper)
  {
    CleanedIsClean(payload[field].items, upper);
    DedupeKeeps(Cleaned(payload[field].items, upper));
  }

  /** Reading back names that were read before gives the same names. */
  lemma NamesRoundTrip(payload: Payload, field: string, upper: bool, payload': Payload)
    requires Names(payload, field, upper).Some?
    requires field in payload' && payload'[field] == Strings(Names(payload, field, upper).value)
    ensures Names(payload', field, upper) == Names(payload, field, upper)
  {
    NamesAreClean(payload, field, upper);
    var names := Names(payload, field, upper).value;
    CleanedFixes(names, upper);
    DedupeFixes(names);
  }

  // ------------------------------------------------------------ what names are

  /** `x` is `s` with the ASCII letters in upper case: the k-th small letter becomes the
      k-th capital one. */
  ghost predicate IsUpperOf(x: string, s: string) {
    && |x| == |s|
    && forall i :: 0 <= i < |s| ==>
         if 'a' <= s[i] <= 'z' then x[i] as int - 'A' as int == s[i] as int - 'a' as int else x[i] == s[i]
  }

  /** `x` is the name a list item stands for: what is between its blanks. */
  ghost predicate IsName(v: Value, upper: bool, x: string) {
    v.Str? && exists a, core, b :: Pads(v.s, a, core, b) && Trimmed(core) && if upper then IsUpperOf(x, core) else x == core
  }

  lemma UpperIff(x: string, s: string)
    ensures IsUpperOf(x, s) <==> x == Upper(s)
  {
    if IsUpperOf(x, s) {
      forall i | 0 <= i < |s| ensures x[i] == UpperChar(s[i]) {
      }
    }
  }

  lemma NameIff(v: Value, upper: bool, x: string)
    ensures IsName(v, upper, x) <==> NameOf(v, upper) == Some(x)
  {
    if v.Str? {
      UpperIff(x, Strip(v.s));
      var a, b := StripPads(v.s);
      assert Pads(v.s, a, Strip(v.s), b);
      forall c, core, d | Pads(v.s, c, core, d) && Trimmed(core) ensures core == Strip(v.s) {
        StripIff(v.s, core);
      }
    }
  }

  ghost predicate Named(items: seq<Value>, upper: bool, x: string) {
    exists i :: 0 <= i < |items| && IsName(items[i], upper, x)
  }

  /** `names` are the names of the items, once each, in the order in which they first
      occur. */
  ghost predicate AreNames(names: seq<string>, items: seq<Value>, upper: bool) {
    && NoDup(names)
    && (forall x :: x in names <==> Named(items, upper, x))
    && (forall p, q, j :: 0 <= p < q < |names| && 0 <= j < |items| && IsName(items[j], upper, names[q]) ==>
          Named(items[..j], upper, names[p]))
  }

  lemma NamedByLast(items: seq<Value>, upper: bool, x: string)
    requires items != []
    ensures Named(items, upper, x) <==> Named(items[..|items| - 1], upper, x) || IsName(items[|items| - 1], upper, x)
  {
    var n := |items| - 1;
    if i :| 0 <= i < |items| && IsName(items[i], upper, x) {
      assert i < n ==> items[..n][i] == items[i];
    }
  }

  /** One more item adds its name at the end, unless that is there already. */
  lemma NamesGrow(items: seq<Value>, upper: bool, before: seq<string>, names: seq<string>)
    requires items != [] && AreNames(before, items[..|items| - 1], upper)
    requires var name := NameOf(items[|items| - 1], upper);
      names == if name.None? || name.value in before then before else before + [name.value]
    ensures AreNames(names, items, upper)
  {
    var n := |items| - 1;
    forall x ensures x in names <==> Named(items, upper, x) {
      NamedByLast(items, upper, x);
      NameIff(items[n], upper, x);
    }
    forall p, q, j | 0 <= p < q < |names| && 0 <= j < |items| && IsName(items[j], upper, names[q])
      ensures Named(items[..j], upper, names[p])
    {
      if j < n {
        assert items[..n][j] == items[j] && items[..n][..j] == items[..j];
        assert Named(items[..n], upper, names[q]);
      } else {
        assert names[p] in before;
      }
    }
  }

  lemma {:induction false} DedupedNames(items: seq<Value>, upper: bool)
    ensures AreNames(Dedupe(Cleaned(items, upper)), items, upper)
  {
    if items != [] {
      var n := |items| - 1;
      DedupedNames(items[..n], upper);
      CleanedLast(items, upper);
      NamesGrow(items, upper, Dedupe(Cleaned(items[..n], upper)), Dedupe(Cleaned(items, upper)));
    }
  }

  lemma CleanedLast(items: seq<Value>, upper: bool)
    requires items != []
    ensures var before, name := Dedupe(Cleaned(items[..|items| - 1], upper)), NameOf(items[|items| - 1], upper);
      Dedupe(Cleaned(items, upper)) == if name.None? || name.value in before then before else before + [name.value]
  {
    var front, name := Cleaned(items[..|items| - 1], upper), NameOf(items[|items| - 1], upper);
    if name.Some? {
      assert (front + [name.value])[..|front|] == front;
    }
  }

  ghost predicate NoNames(payload: Payload, field: string, upper: bool) {
    field !in payload || !payload[field].List? || forall x :: !Named(payload[field].items, upper, x)
  }

  lemma NamesAre(payload: Payload, field: string, upper: bool)
    ensures Names(payload, field, upper).None? <==> NoNames(payload, field, upper)
    ensures Names(payload, field, upper).Some? ==>
      AreNames(Names(payload, field, upper).value, payload[field].items, upper)
  {
    if field in payload && payload[field].List? {
      DedupedNames(payload[field].items, upper);
      var names := Dedupe(Cleaned(payload[field].items, upper));
      if names != [] {
        assert names[0] in names;
      }
    }
  }

  /** What the helpers read: the strings of their list without surrounding blanks, in
      upper case for symbols, once each, in the order in which they first occur; and
      they raise exactly if there is no list or nothing but blanks in it. */
  lemma ReadersAre(payload: Payload)
    ensures SymbolsFrom(payload).None? <==> NoNames(payload, "symbols", true)
    ensures SymbolsFrom(payload).Some? ==> AreNames(SymbolsFrom(payload).value, payload["symbols"].items, true)
    ensures SourceKeysFrom(payload).None? <==> NoNames(payload, "source_keys", false)
    ensures SourceKeysFrom(payload).Some? ==> AreNames(SourceKeysFrom(payload).value, payload["source_keys"].items, false)
  {
    NamesAre(payload, "symbols", true);
    NamesAre(payload, "source_keys", false);
  }

  /** The two retry fields: the attempt is a whole number from 0 up, true being 1 and
      anything else 0; the root is a text that is not empty, or else the run key. */
  lemma RetryFieldsAre(runKey: string, payload: Payload, value: Value)
    ensures "_news_retry_attempt" !in payload ==> RetryAttempt(payload) == 0
    ensures RetryAttempt(payload["_news_retry_attempt" := value]) ==
      if value.Int? && value.n > 0 then value.n else if value == Bool(true) then 1 else 0
    ensures "_news_retry_root_run_key" !in payload ==> RootRunKey(runKey, payload) == runKey
    ensures RootRunKey(runKey, payload["_news_retry_root_run_key" := value]) ==
      if value.Str? && value.s != "" then value.s else runKey
  {
  }
}
