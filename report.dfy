/**
 * The triggers document `plugin_triggers` writes for the host: one entry per
 * configured asset in key order, with the evaluation mode and interval when
 * the asset's trigger has a mode. Names are written without escaping, so the
 * document reads back only when no asset name or mode holds a double quote;
 * `DecodeTriggers` reads it back and `TriggersRoundTrip` proves that it does.
 */
module Report {
  import opened Json
  import opened Store

  const EmptyTriggers: string := "{\"triggers\" : []}"
  const TriggersOpen: string := "{\"triggers\" : [ "
  const TriggersClose: string := " ] }"
  const AssetOpen: string := "{ \"asset\"  : \""
  const EntryClose: string := " }"
  const ModeOpen: string := ", \""
  const ModeColon: string := "\" : "
  const Separator: string := ", "

  predicate IsDigit(c: char)
  {
    '0' <= c <= '9'
  }

  predicate AllDigits(s: string)
  {
    forall i :: 0 <= i < |s| ==> IsDigit(s[i])
  }

  function DigitChar(d: nat): (c: char)
    requires d < 10
    ensures IsDigit(c)
  {
    ('0' as int + d) as char
  }

  /** `to_string` of an unsigned integer: its decimal digits, no leading zero. */
  function Decimal(n: nat): (s: string)
    ensures s != [] && AllDigits(s)
    ensures |s| > 1 ==> s[0] != '0'
  {
    if n < 10 then [DigitChar(n)] else Decimal(n / 10) + [DigitChar(n % 10)]
  }

  function ParseDecimal(s: string): nat
    requires AllDigits(s)
  {
    if s == [] then 0
    else ParseDecimal(s[..|s| - 1]) * 10 + (s[|s| - 1] as int - '0' as int)
  }

  lemma {:induction false} DecimalRoundTrip(n: nat)
    ensures ParseDecimal(Decimal(n)) == n
  {
    if n >= 10 {
      DecimalRoundTrip(n / 10);
      var s := Decimal(n);
      assert s[..|s| - 1] == Decimal(n / 10);
    }
  }

  /** One asset's entry. */
  function Entry(asset: string, t: Trigger): string
  {
    AssetOpen + asset + "\"" + EntryTail(t)
  }

  /** The part of an entry after the asset name: the mode and interval when
      the trigger has a mode. */
  function EntryTail(t: Trigger): string
  {
    if t.evaluation == "" then EntryClose
    else ModeOpen + t.evaluation + ModeColon + Decimal(t.interval) + EntryClose
  }

  /** The entries of a non-empty store, separated by ", ". */
  function Entries(store: Store): string
    requires store != []
  {
    if |store| == 1 then Entry(store[0].0, store[0].1)
    else Entry(store[0].0, store[0].1) + Separator + Entries(store[1..])
  }

  /** What `plugin_triggers` returns for a store. */
  function TriggersText(store: Store): string
  {
    if store == [] then EmptyTriggers else TriggersOpen + Entries(store) + TriggersClose
  }

  lemma {:induction false} EntriesSnoc(store: Store, asset: string, t: Trigger)
    requires store != []
    ensures Entries(store + [(asset, t)]) == Entries(store) + Separator + Entry(asset, t)
  {
    if |store| > 1 {
      assert (store + [(asset, t)])[1..] == store[1..] + [(asset, t)];
      EntriesSnoc(store[1..], asset, t);
    } else {
      assert (store + [(asset, t)])[1..] == [(asset, t)];
    }
  }

  /** The empty document is written exactly for the empty store. */
  lemma TriggersEmpty(store: Store)
    ensures TriggersText(store) == EmptyTriggers <==> store == []
  {
    if store != [] {
      assert TriggersText(store)[15] == ' ' != EmptyTriggers[15];
    }
  }

  /** What the document says about one asset: its name, and its evaluation
      mode and interval when the trigger has a mode. */
  datatype Listed = Listed(asset: string, window: Option<(string, nat)>)

  function ListedOf(asset: string, t: Trigger): Listed
  {
    Listed(asset, if t.evaluation == "" then None else Some((t.evaluation, t.interval)))
  }

  function Listing(store: Store): (l: seq<Listed>)
    ensures |l| == |store|
  {
    seq(|store|, i requires 0 <= i < |store| => ListedOf(store[i].0, store[i].1))
  }

  predicate StartsWith(s: string, prefix: string)
  {
    |prefix| <= |s| && s[..|prefix|] == prefix
  }

  /** The index of the first double quote, or the length when there is none. */
  function QuoteIndex(s: string): (k: nat)
    ensures k <= |s|
  {
    if s == [] || s[0] == '"' then 0 else 1 + QuoteIndex(s[1..])
  }

  /** The number of leading decimal digits. */
  function DigitCount(s: string): (k: nat)
    ensures k <= |s| && AllDigits(s[..k])
  {
    if s == [] || !IsDigit(s[0]) then 0
    else
      var k := 1 + DigitCount(s[1..]);
      assert s[..k] == [s[0]] + s[1..][..k - 1];
      k
  }

  /** Reads one entry at the front of `s`, and returns what is after it. */
  function DecodeEntry(s: string): (r: Option<(Listed, string)>)
    ensures r.Some? ==> |r.value.1| < |s|
  {
    if !StartsWith(s, AssetOpen) then None else DecodeName(s[|AssetOpen|..])
  }

  function DecodeName(s: string): (r: Option<(Listed, string)>)
    ensures r.Some? ==> |r.value.1| < |s|
  {
    var q := QuoteIndex(s);
    if q == |s| then None else DecodeTail(s[..q], s[q + 1..])
  }

  function DecodeTail(name: string, s: string): (r: Option<(Listed, string)>)
    ensures r.Some? ==> |r.value.1| < |s|
  {
    if StartsWith(s, EntryClose) then Some((Listed(name, None), s[|EntryClose|..]))
    else if !StartsWith(s, ModeOpen) then None
    else DecodeMode(name, s[|ModeOpen|..])
  }

  function DecodeMode(name: string, s: string): (r: Option<(Listed, string)>)
    ensures r.Some? ==> |r.value.1| < |s|
  {
    var m := QuoteIndex(s);
    if m == |s| then None else DecodeInterval(name, s[..m], s[m..])
  }

  function DecodeInterval(name: string, mode: string, s: string): (r: Option<(Listed, string)>)
    ensures r.Some? ==> |r.value.1| < |s|
  {
    if !StartsWith(s, ModeColon) then None
    else
      var digits := s[|ModeColon|..];
      var k := DigitCount(digits);
      if k == 0 || !StartsWith(digits[k..], EntryClose) then None
      else Some((Listed(name, Some((mode, ParseDecimal(digits[..k])))), digits[k + |EntryClose|..]))
  }

  /** Reads entries separated by ", " up to the end of `s`. */
  function DecodeEntries(s: string): Option<seq<Listed>>
    decreases |s|
  {
    match DecodeEntry(s)
    case None => None
    case Some((e, rest)) =>
      if rest == [] then Some([e])
      else if !StartsWith(rest, Separator) then None
      else
        match DecodeEntries(rest[|Separator|..])
        case None => None
        case Some(es) => Some([e] + es)
  }

  /** Reads a triggers document back into its listing. */
  function DecodeTriggers(text: string): Option<seq<Listed>>
  {
    if text == EmptyTriggers then Some([])
    else if |TriggersOpen| + |TriggersClose| <= |text| && StartsWith(text, TriggersOpen) &&
            text[|text| - |TriggersClose|..] == TriggersClose then
      DecodeEntries(text[|TriggersOpen|..|text| - |TriggersClose|])
    else None
  }

  predicate QuoteFree(s: string)
  {
    forall i :: 0 <= i < |s| ==> s[i] != '"'
  }

  lemma {:induction false} QuoteIndexAfter(a: string, rest: string)
    requires QuoteFree(a) && rest != [] && rest[0] == '"'
    ensures QuoteIndex(a + rest) == |a|
  {
    if a != [] {
      assert (a + rest)[1..] == a[1..] + rest;
      QuoteIndexAfter(a[1..], rest);
    }
  }

  lemma {:induction false} DigitCountOf(digits: string, rest: string)
    requires AllDigits(digits)
    requires rest != [] && !IsDigit(rest[0])
    ensures DigitCount(digits + rest) == |digits|
  {
    if digits != [] {
      assert (digits + rest)[1..] == digits[1..] + rest;
      DigitCountOf(digits[1..], rest);
    }
  }

  lemma IntervalRoundTrip(name: string, mode: string, n: nat, rest: string)
    ensures DecodeInterval(name, mode, ModeColon + Decimal(n) + EntryClose + rest) ==
            Some((Listed(name, Some((mode, n))), rest))
  {
    var dec := Decimal(n);
    var s := ModeColon + dec + EntryClose + rest;
    assert s[..|ModeColon|] == ModeColon;
    var digits := dec + (EntryClose + rest);
    assert s[|ModeColon|..] == digits;
    DigitCountOf(dec, EntryClose + rest);
    assert digits[..|dec|] == dec;
    assert digits[|dec|..] == EntryClose + rest;
    assert (EntryClose + rest)[..|EntryClose|] == EntryClose;
    assert digits[|dec| + |EntryClose|..] == rest;
    DecimalRoundTrip(n);
  }

  lemma ModeRoundTrip(name: string, mode: string, n: nat, rest: string)
    requires QuoteFree(mode)
    ensures DecodeMode(name, mode + (ModeColon + Decimal(n) + EntryClose + rest)) ==
            Some((Listed(name, Some((mode, n))), rest))
  {
    var after := ModeColon + Decimal(n) + EntryClose + rest;
    QuoteIndexAfter(mode, after);
    assert (mode + after)[..|mode|] == mode;
    assert (mode + after)[|mode|..] == after;
    IntervalRoundTrip(name, mode, n, rest);
  }

  lemma TailRoundTrip(name: string, t: Trigger, rest: string)
    requires QuoteFree(t.evaluation)
    ensures DecodeTail(name, EntryTail(t) + rest) == Some((ListedOf(name, t), rest))
  {
    var s := EntryTail(t) + rest;
    if t.evaluation == "" {
      assert s[..|EntryClose|] == EntryClose;
      assert s[|EntryClose|..] == rest;
    } else {
      var after := ModeColon + Decimal(t.interval) + EntryClose + rest;
      assert s == ModeOpen + (t.evaluation + after);
      assert s[0] == ',';
      assert s[..|ModeOpen|] == ModeOpen;
      assert s[|ModeOpen|..] == t.evaluation + after;
      ModeRoundTrip(name, t.evaluation, t.interval, rest);
    }
  }

  /** One entry reads back as its listing, whatever follows it. */
  lemma EntryRoundTrip(asset: string, t: Trigger, rest: string)
    requires QuoteFree(asset) && QuoteFree(t.evaluation)
    ensures DecodeEntry(Entry(asset, t) + rest) == Some((ListedOf(asset, t), rest))
  {
    var s := Entry(asset, t) + rest;
    var after := "\"" + (EntryTail(t) + rest);
    assert s == AssetOpen + (asset + after);
    assert s[..|AssetOpen|] == AssetOpen;
    assert s[|AssetOpen|..] == asset + after;
    QuoteIndexAfter(asset, after);
    assert (asset + after)[..|asset|] == asset;
    assert (asset + after)[|asset| + 1..] == EntryTail(t) + rest;
    TailRoundTrip(asset, t, rest);
  }

  predicate StoreQuoteFree(store: Store)
  {
    forall i :: 0 <= i < |store| ==> QuoteFree(store[i].0) && QuoteFree(store[i].1.evaluation)
  }

  lemma DecodeEntriesStep(s: string, e: Listed, next: string, es: seq<Listed>)
    requires DecodeEntry(s) == Some((e, Separator + next))
    requires DecodeEntries(next) == Some(es)
    ensures DecodeEntries(s) == Some([e] + es)
  {
    var rest := Separator + next;
    assert rest[..|Separator|] == Separator && rest[|Separator|..] == next;
  }

  lemma StoreQuoteFreeTail(store: Store)
    requires store != [] && StoreQuoteFree(store)
    ensures StoreQuoteFree(store[1..])
  {
    forall i | 0 <= i < |store| - 1 ensures QuoteFree(store[1..][i].0) && QuoteFree(store[1..][i].1.evaluation) {
      assert store[1..][i] == store[i + 1];
    }
  }

  lemma SingleEntryRoundTrip(store: Store)
    requires |store| == 1 && StoreQuoteFree(store)
    ensures DecodeEntries(Entries(store)) == Some(Listing(store))
  {
    EntryRoundTrip(store[0].0, store[0].1, "");
    assert Entries(store) == Entry(store[0].0, store[0].1) + "";
    assert Listing(store) == [ListedOf(store[0].0, store[0].1)];
  }

  lemma {:induction false} EntriesRoundTrip(store: Store)
    requires store != [] && StoreQuoteFree(store)
    ensures DecodeEntries(Entries(store)) == Some(Listing(store))
  {
    if |store| == 1 {
      SingleEntryRoundTrip(store);
    } else {
      StoreQuoteFreeTail(store);
      EntriesRoundTrip(store[1..]);
      ConsEntryRoundTrip(store);
    }
  }

  lemma ConsEntryRoundTrip(store: Store)
    requires |store| > 1 && StoreQuoteFree(store)
    requires DecodeEntries(Entries(store[1..])) == Some(Listing(store[1..]))
    ensures DecodeEntries(Entries(store)) == Some(Listing(store))
  {
    var e := ListedOf(store[0].0, store[0].1);
    var next := Entries(store[1..]);
    EntriesCons(store);
    EntryRoundTrip(store[0].0, store[0].1, Separator + next);
    DecodeEntriesStep(Entries(store), e, next, Listing(store[1..]));
    ListingCons(store);
  }

  lemma EntriesCons(store: Store)
    requires |store| > 1
    ensures Entries(store) == Entry(store[0].0, store[0].1) + (Separator + Entries(store[1..]))
  {
  }

  lemma ListingCons(store: Store)
    requires store != []
    ensures Listing(store) == [ListedOf(store[0].0, store[0].1)] + Listing(store[1..])
  {
  }

  /** The listing of a sorted store names each asset once, in ascending key
      order. */
  lemma ListingAscending(store: Store)
    requires Sorted(store)
    ensures forall i, j :: 0 <= i < j < |Listing(store)| ==>
              Less(Listing(store)[i].asset, Listing(store)[j].asset)
  {
  }

  /** The triggers document reads back as the listing of the store, in the
      store's order, when no asset name or mode holds a double quote. */
  lemma TriggersRoundTrip(store: Store)
    requires StoreQuoteFree(store)
    ensures DecodeTriggers(TriggersText(store)) == Some(Listing(store))
  {
    if store != [] {
      TriggersEmpty(store);
      var text := TriggersText(store);
      assert text[..|TriggersOpen|] == TriggersOpen;
      assert text[|text| - |TriggersClose|..] == TriggersClose;
      assert text[|TriggersOpen|..|text| - |TriggersClose|] == Entries(store);
      EntriesRoundTrip(store);
    }
  }
}
