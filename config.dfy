/**
 * The rule configuration of `OutOfBound::configure`: which entries of the
 * `rules` array produce triggers, what each trigger records, and the store
 * the configuration leaves behind. `configure` calls `addTrigger` once per
 * accepted datapoint; `Contributions` is the sequence of those calls and
 * `ConfigureStore` the store they build.
 */
module Config {
  import opened Json
  import opened Store

  const TwoTo31: int := 0x8000_0000
  const TwoTo32: int := 0x1_0000_0000

  /** An entry with neither `asset` nor `datapoints` is passed over. */
  predicate Skipped(rule: Json)
  {
    !Has(rule, "asset") && !Has(rule, "datapoints")
  }

  predicate NamedAsset(rule: Json)
  {
    Has(rule, "asset") && HasString(Get(rule, "asset"), "name")
  }

  function AssetName(rule: Json): string
    requires NamedAsset(rule)
  {
    Get(Get(rule, "asset"), "name").s
  }

  /** `rule[key]`, when present, has a string `value`. */
  predicate ValueIsString(rule: Json, key: string)
  {
    Has(rule, key) ==> HasString(Get(rule, key), "value")
  }

  function DescriptorValue(rule: Json, key: string): string
    requires Has(rule, key) && ValueIsString(rule, key)
  {
    Get(Get(rule, key), "value").s
  }

  /** `evaluation_data.value` is "Window". */
  predicate WindowEvaluation(rule: Json)
    requires ValueIsString(rule, "evaluation_data")
  {
    Has(rule, "evaluation_data") && DescriptorValue(rule, "evaluation_data") == "Window"
  }

  predicate DescriptorsReadable(rule: Json)
  {
    ValueIsString(rule, "evaluation_data") &&
    (WindowEvaluation(rule) ==> ValueIsString(rule, "window_data"))
  }

  /** The evaluation mode recorded for the rule's triggers. */
  function WindowMode(rule: Json): string
    requires DescriptorsReadable(rule)
  {
    if WindowEvaluation(rule) && Has(rule, "window_data") then DescriptorValue(rule, "window_data")
    else ""
  }

  /** A JSON number the library reports as a 32-bit signed integer. */
  predicate IsInt(v: Json)
  {
    v.JNumber? && v.n == v.n.Floor as real && -TwoTo31 <= v.n.Floor < TwoTo31
  }

  /** A 32-bit signed integer stored into an unsigned 32-bit variable. */
  function ToUnsigned(i: int): (u: nat)
    requires -TwoTo31 <= i < TwoTo31
    ensures u < TwoTo32 && (u - i) % TwoTo32 == 0
    ensures 0 <= i ==> u == i
  {
    if i < 0 then i + TwoTo32 else i
  }

  predicate IntervalReadable(rule: Json)
  {
    DescriptorsReadable(rule) &&
    (WindowMode(rule) != "" && Has(rule, "time_interval") ==> IsInt(Get(rule, "time_interval")))
  }

  /** The interval recorded for the rule's triggers: `time_interval`, only for
      a window evaluation with a non-empty mode, else 0. */
  function Interval(rule: Json): nat
    requires IntervalReadable(rule)
  {
    if WindowMode(rule) != "" && Has(rule, "time_interval") then ToUnsigned(Get(rule, "time_interval").n.Floor)
    else 0
  }

  /** The eval-all-datapoints flag: a boolean `eval_all_datapoints`, else true. */
  function EvalAllFlag(rule: Json): bool
  {
    if Has(rule, "eval_all_datapoints") && Get(rule, "eval_all_datapoints").JBool? then
      Get(rule, "eval_all_datapoints").b
    else true
  }

  /** Every element of the datapoints array is an object, and one that has a
      `name` has a string one. */
  predicate DatapointNamesReadable(dps: Json)
  {
    dps.JArray? ==>
      forall i :: 0 <= i < |dps.items| ==>
        dps.items[i].JObject? && (Has(dps.items[i], "name") ==> HasString(dps.items[i], "name"))
  }

  /** What the configuration code reads from a rule entry without checking its
      type or presence first: the library's behaviour is undefined otherwise. */
  predicate WellFormedRule(rule: Json)
  {
    rule.JObject? &&
    (!Skipped(rule) ==>
      NamedAsset(rule) &&
      (AssetName(rule) != "" ==>
        Has(rule, "datapoints") &&
        IntervalReadable(rule) &&
        DatapointNamesReadable(Get(rule, "datapoints"))))
  }

  /** An entry that goes on to its datapoints. */
  predicate Active(rule: Json)
    requires WellFormedRule(rule)
  {
    !Skipped(rule) && AssetName(rule) != ""
  }

  /** A datapoint element that gets a trigger: a name and a numeric threshold. */
  predicate Qualifies(d: Json)
  {
    HasString(d, "name") && Has(d, "trigger_value") && Get(d, "trigger_value").JNumber?
  }

  /** The `addTrigger` call for datapoint `d` of an active rule. */
  function Contribution(rule: Json, d: Json): (string, Trigger)
    requires WellFormedRule(rule) && Active(rule) && Qualifies(d)
  {
    (AssetName(rule),
     Trigger([Datapoint(Get(d, "name").s, Get(d, "trigger_value").n)],
             WindowMode(rule), Interval(rule), EvalAllFlag(rule)))
  }

  /** The `addTrigger` calls for the datapoint elements `items`, in order. */
  function DatapointContributions(rule: Json, items: seq<Json>): seq<(string, Trigger)>
    requires WellFormedRule(rule) && Active(rule)
  {
    if items == [] then []
    else
      var d := items[|items| - 1];
      DatapointContributions(rule, items[..|items| - 1]) + (if Qualifies(d) then [Contribution(rule, d)] else [])
  }

  /** The datapoints array of an active entry, as the loop over it sees
      it: empty when it is not an array. */
  function DatapointElements(rule: Json): seq<Json>
    requires WellFormedRule(rule) && Active(rule)
  {
    var dps := Get(rule, "datapoints");
    if dps.JArray? then dps.items else []
  }

  /** The `addTrigger` calls for one rule entry. */
  function RuleContributions(rule: Json): seq<(string, Trigger)>
    requires WellFormedRule(rule)
  {
    if Active(rule) then DatapointContributions(rule, DatapointElements(rule)) else []
  }

  predicate AllWellFormed(rules: seq<Json>)
  {
    forall i :: 0 <= i < |rules| ==> WellFormedRule(rules[i])
  }

  /** The `addTrigger` calls for the first `n` entries of a rules array, in
      order. */
  function ContributionsUpTo(rules: seq<Json>, n: nat): seq<(string, Trigger)>
    requires AllWellFormed(rules) && n <= |rules|
  {
    if n == 0 then [] else ContributionsUpTo(rules, n - 1) + RuleContributions(rules[n - 1])
  }

  /** The `addTrigger` calls for a whole rules array. */
  function Contributions(rules: seq<Json>): seq<(string, Trigger)>
    requires AllWellFormed(rules)
  {
    ContributionsUpTo(rules, |rules|)
  }

  /** The `rules` array of a parsed configuration, if it has one. */
  function Rules(doc: Option<Json>): Option<seq<Json>>
  {
    if doc.Some? && Has(doc.value, "rules") && Get(doc.value, "rules").JArray? then
      Some(Get(doc.value, "rules").items)
    else None
  }

  /** A parsed configuration is an object, and its rule entries are well
      formed. */
  predicate WellFormedConfig(doc: Option<Json>)
  {
    (doc.Some? ==> doc.value.JObject?) &&
    (Rules(doc).Some? ==> AllWellFormed(Rules(doc).value))
  }

  /** The trigger store after `configure` on a parsed configuration
      (`None` for one that did not parse). */
  function ConfigureStore(store: Store, doc: Option<Json>, policy: InsertPolicy): (r: Store)
    requires Sorted(store) && WellFormedConfig(doc)
    ensures Sorted(r)
  {
    if Rules(doc).None? then store else BuildStore(Rules(doc).value, policy)
  }

  /** The store the `addTrigger` calls of a rules array build from empty. */
  function BuildStore(rules: seq<Json>, policy: InsertPolicy): (r: Store)
    requires AllWellFormed(rules)
    ensures Sorted(r) && Keys(r) == Keys(Contributions(rules))
  {
    InsertAll([], Contributions(rules), policy)
  }

  /** Configuration leaves the store alone unless it finds a `rules` array;
      with one, the old store is discarded first, whatever the array holds. */
  lemma ConfigureReplaces(store: Store, doc: Option<Json>, policy: InsertPolicy)
    requires Sorted(store) && WellFormedConfig(doc)
    ensures doc.None? ==> ConfigureStore(store, doc, policy) == store
    ensures doc.Some? && !Has(doc.value, "rules") ==> ConfigureStore(store, doc, policy) == store
    ensures doc.Some? && Has(doc.value, "rules") && !Get(doc.value, "rules").JArray? ==>
              ConfigureStore(store, doc, policy) == store
    ensures Rules(doc).Some? ==> ConfigureStore(store, doc, policy) == ConfigureStore([], doc, policy)
    ensures Rules(doc) == Some([]) ==> ConfigureStore(store, doc, policy) == []
  {
  }

  /** Configuring twice with the same document is configuring once. */
  lemma ConfigureIdempotent(store: Store, doc: Option<Json>, policy: InsertPolicy)
    requires Sorted(store) && WellFormedConfig(doc)
    ensures ConfigureStore(ConfigureStore(store, doc, policy), doc, policy) == ConfigureStore(store, doc, policy)
  {
  }

  /** `c` is the `addTrigger` call for an accepted element of `items`. */
  predicate ContributionOf(c: (string, Trigger), rule: Json, items: seq<Json>)
    requires WellFormedRule(rule) && Active(rule)
  {
    exists j :: 0 <= j < |items| && Qualifies(items[j]) && c == Contribution(rule, items[j])
  }

  /** `c` is the `addTrigger` call for an accepted datapoint of `rule`. */
  predicate ComesFrom(c: (string, Trigger), rule: Json)
    requires WellFormedRule(rule)
  {
    Active(rule) && ContributionOf(c, rule, DatapointElements(rule))
  }

  /** The positions of the accepted elements of `items`. */
  function QualifyingPositions(items: seq<Json>): set<nat>
  {
    set j: nat | j < |items| && Qualifies(items[j])
  }

  /** One more element adds its own position when it is accepted. */
  lemma QualifyingPositionsSnoc(items: seq<Json>)
    requires items != []
    ensures |QualifyingPositions(items)| ==
            |QualifyingPositions(items[..|items| - 1])| + (if Qualifies(items[|items| - 1]) then 1 else 0)
  {
    var init := items[..|items| - 1];
    var last: nat := |items| - 1;
    assert QualifyingPositions(items) ==
           QualifyingPositions(init) + (if Qualifies(items[last]) then {last} else {}) by {
      forall j: nat | j < |init| ensures items[j] == init[j] { }
    }
    assert last !in QualifyingPositions(init);
  }

  /** The datapoint loop makes one `addTrigger` call per accepted element,
      and its calls are exactly those elements' calls. */
  lemma {:induction false} DatapointContributionsExact(rule: Json, items: seq<Json>)
    requires WellFormedRule(rule) && Active(rule)
    ensures forall c :: c in DatapointContributions(rule, items) <==> ContributionOf(c, rule, items)
    ensures |DatapointContributions(rule, items)| == |QualifyingPositions(items)|
  {
    if items != [] {
      var init := items[..|items| - 1];
      var d := items[|items| - 1];
      DatapointContributionsExact(rule, init);
      var extra := if Qualifies(d) then [Contribution(rule, d)] else [];
      assert DatapointContributions(rule, items) == DatapointContributions(rule, init) + extra;
      QualifyingPositionsSnoc(items);
      forall c ensures c in DatapointContributions(rule, items) <==> ContributionOf(c, rule, items) {
        if ContributionOf(c, rule, init) {
          var j :| 0 <= j < |init| && Qualifies(init[j]) && c == Contribution(rule, init[j]);
          assert items[j] == init[j];
        }
        if ContributionOf(c, rule, items) {
          var j :| 0 <= j < |items| && Qualifies(items[j]) && c == Contribution(rule, items[j]);
          if j < |init| {
            assert items[j] == init[j];
            assert ContributionOf(c, rule, init);
          }
        }
        if c in extra {
          assert Qualifies(items[|items| - 1]);
        }
      }
    }
  }

  /** Every `addTrigger` call for the first `n` entries is for an accepted
      datapoint of one of them. */
  lemma {:induction false} ContributionsSound(rules: seq<Json>, n: nat, c: (string, Trigger))
    requires AllWellFormed(rules) && n <= |rules| && c in ContributionsUpTo(rules, n)
    ensures exists i :: 0 <= i < n && ComesFrom(c, rules[i])
  {
    var last := rules[n - 1];
    if c in ContributionsUpTo(rules, n - 1) {
      ContributionsSound(rules, n - 1, c);
    } else {
      DatapointContributionsExact(last, DatapointElements(last));
      assert ComesFrom(c, rules[n - 1]);
    }
  }

  /** Every accepted datapoint of the first `n` entries gets its
      `addTrigger` call. */
  lemma {:induction false} ContributionsComplete(rules: seq<Json>, n: nat, i: nat, c: (string, Trigger))
    requires AllWellFormed(rules) && i < n <= |rules| && ComesFrom(c, rules[i])
    ensures c in ContributionsUpTo(rules, n)
  {
    if i < n - 1 {
      ContributionsComplete(rules, n - 1, i, c);
    } else {
      DatapointContributionsExact(rules[i], DatapointElements(rules[i]));
      assert c in RuleContributions(rules[n - 1]);
    }
  }

  /** An active entry with at least one accepted datapoint. */
  predicate HasQualifying(rule: Json)
    requires WellFormedRule(rule)
  {
    Active(rule) && exists d :: d in DatapointElements(rule) && Qualifies(d)
  }

  /** An `addTrigger` call of an entry names its asset and carries its mode,
      interval and flag and one datapoint. */
  lemma FromEntry(rule: Json, c: (string, Trigger))
    requires WellFormedRule(rule) && ComesFrom(c, rule)
    ensures HasQualifying(rule) && c.0 == AssetName(rule)
    ensures c.1.evaluation == WindowMode(rule) && c.1.interval == Interval(rule)
    ensures c.1.evalAll == EvalAllFlag(rule) && c.1.datapoints != []
  {
    var items := DatapointElements(rule);
    var j :| 0 <= j < |items| && Qualifies(items[j]) && c == Contribution(rule, items[j]);
    assert items[j] in items;
  }

  /** Every `addTrigger` call of a rules array comes from an entry with an
      accepted datapoint, whose asset, mode, interval and flag it carries. */
  lemma OriginOf(rules: seq<Json>, c: (string, Trigger))
    requires AllWellFormed(rules) && c in Contributions(rules)
    ensures exists i :: 0 <= i < |rules| && ComesFrom(c, rules[i]) &&
              HasQualifying(rules[i]) && AssetName(rules[i]) == c.0 &&
              c.1.evaluation == WindowMode(rules[i]) && c.1.interval == Interval(rules[i]) &&
              c.1.evalAll == EvalAllFlag(rules[i]) && c.1.datapoints != []
  {
    ContributionsSound(rules, |rules|, c);
    var i :| 0 <= i < |rules| && ComesFrom(c, rules[i]);
    FromEntry(rules[i], c);
  }

  lemma AssetOfContribution(rules: seq<Json>, k: string)
    requires AllWellFormed(rules) && k in Keys(Contributions(rules))
    ensures exists i :: 0 <= i < |rules| && HasQualifying(rules[i]) && AssetName(rules[i]) == k
  {
    var cs := Contributions(rules);
    KeysMembership(cs);
    var n :| 0 <= n < |cs| && cs[n].0 == k;
    OriginOf(rules, cs[n]);
  }

  lemma ContributionOfAsset(rules: seq<Json>, i: nat)
    requires AllWellFormed(rules) && i < |rules| && HasQualifying(rules[i])
    ensures AssetName(rules[i]) in Keys(Contributions(rules))
  {
    var cs := Contributions(rules);
    var items := DatapointElements(rules[i]);
    var d :| d in items && Qualifies(d);
    var j :| 0 <= j < |items| && items[j] == d;
    var c := Contribution(rules[i], d);
    assert ComesFrom(c, rules[i]);
    ContributionsComplete(rules, |rules|, i, c);
    var n :| 0 <= n < |cs| && cs[n] == c;
    KeysMembership(cs);
  }

  /** A rules array configures an asset iff some entry names it (non-empty)
      and has a datapoint with a name and a numeric trigger_value; the store
      holds each such asset once. */
  lemma ConfiguredAssets(rules: seq<Json>, policy: InsertPolicy, k: string)
    requires AllWellFormed(rules)
    ensures k in Keys(BuildStore(rules, policy)) <==>
            exists i :: 0 <= i < |rules| && HasQualifying(rules[i]) && AssetName(rules[i]) == k
    ensures |BuildStore(rules, policy)| == |Keys(Contributions(rules))|
  {
    SortedKeyCount(BuildStore(rules, policy));
    if k in Keys(Contributions(rules)) {
      AssetOfContribution(rules, k);
    }
    if exists i :: 0 <= i < |rules| && HasQualifying(rules[i]) && AssetName(rules[i]) == k {
      var i :| 0 <= i < |rules| && HasQualifying(rules[i]) && AssetName(rules[i]) == k;
      ContributionOfAsset(rules, i);
    }
  }

  /** The first `addTrigger` call for an asset comes from an entry for that
      asset with an accepted datapoint. */
  lemma FirstContributionOrigin(rules: seq<Json>, k: string)
    requires AllWellFormed(rules) && k in Keys(Contributions(rules))
    ensures var c := Lookup(Contributions(rules), k).value;
            exists i :: 0 <= i < |rules| && HasQualifying(rules[i]) && AssetName(rules[i]) == k &&
              ComesFrom((k, c), rules[i]) &&
              c.evaluation == WindowMode(rules[i]) && c.interval == Interval(rules[i]) &&
              c.evalAll == EvalAllFlag(rules[i]) && c.datapoints != []
  {
    var cs := Contributions(rules);
    var first := Lookup(cs, k).value;
    var n :| 0 <= n < |cs| && cs[n] == (k, first);
    OriginOf(rules, cs[n]);
  }

  /** The stored trigger against the first addition for its asset: the same
      trigger under FirstWins; its mode, interval and flag with every
      addition's datapoints under AppendDatapoints. */
  lemma StoredAgainstFirst(cs: seq<(string, Trigger)>, policy: InsertPolicy, k: string)
    requires k in Keys(cs)
    ensures var t := Lookup(InsertAll([], cs, policy), k).value;
            var c := Lookup(cs, k).value;
            t.evaluation == c.evaluation && t.interval == c.interval && t.evalAll == c.evalAll &&
            (policy == FirstWins ==> t == c) &&
            (policy == AppendDatapoints ==> t.datapoints == KeyedDatapoints(cs, k)) &&
            (c.datapoints != [] ==> t.datapoints != [])
  {
    if policy == FirstWins {
      FirstWinsKeepsFirst(cs, k);
    } else {
      AppendGathersAll(cs, k);
      var n :| 0 <= n < |cs| && cs[n] == (k, Lookup(cs, k).value);
      if cs[n].1.datapoints != [] {
        KeyedDatapointsCover(cs, n);
      }
    }
  }

  /** What a configured trigger records. It has the mode, interval and flag
      of an entry for the asset that has an accepted datapoint. Under
      FirstWins it is the trigger of one accepted datapoint of that entry (its
      name and threshold); under AppendDatapoints it holds the datapoints of
      every accepted datapoint for the asset, in order. */
  lemma StoredTrigger(rules: seq<Json>, policy: InsertPolicy, k: string)
    requires AllWellFormed(rules) && k in Keys(BuildStore(rules, policy))
    ensures var t := Lookup(BuildStore(rules, policy), k).value;
            exists i :: 0 <= i < |rules| && HasQualifying(rules[i]) && AssetName(rules[i]) == k &&
              t.evaluation == WindowMode(rules[i]) && t.interval == Interval(rules[i]) &&
              t.evalAll == EvalAllFlag(rules[i]) &&
              (policy == FirstWins ==> ComesFrom((k, t), rules[i]))
    ensures policy == AppendDatapoints ==>
              Lookup(BuildStore(rules, policy), k).value.datapoints == KeyedDatapoints(Contributions(rules), k)
    ensures Lookup(BuildStore(rules, policy), k).value.datapoints != []
  {
    FirstContributionOrigin(rules, k);
    StoredAgainstFirst(Contributions(rules), policy, k);
  }

  /** The datapoints gathered for an asset include those of each addition
      for it, so they are never empty when an addition has one. */
  lemma {:induction false} KeyedDatapointsCover(cs: seq<(string, Trigger)>, n: nat)
    requires n < |cs| && cs[n].1.datapoints != []
    ensures KeyedDatapoints(cs, cs[n].0) != []
  {
    if n > 0 {
      assert cs[1..][n - 1] == cs[n];
      KeyedDatapointsCover(cs[1..], n - 1);
    }
  }

  /** What the recorded fields mean, entry by entry. */
  lemma RecordedFields(rule: Json)
    requires WellFormedRule(rule) && Active(rule)
    ensures !EvalAllFlag(rule) <==> Member(rule, "eval_all_datapoints") == Some(JBool(false))
    ensures WindowMode(rule) != "" ==>
              WindowEvaluation(rule) && Has(rule, "window_data") &&
              WindowMode(rule) == DescriptorValue(rule, "window_data")
    ensures !WindowEvaluation(rule) ==> WindowMode(rule) == ""
    ensures Interval(rule) != 0 ==> WindowMode(rule) != "" && Has(rule, "time_interval")
    ensures Interval(rule) < TwoTo32
  {
  }

  /** The datapoint loop one element further on. */
  lemma DatapointContributionsStep(rule: Json, items: seq<Json>, j: nat)
    requires WellFormedRule(rule) && Active(rule) && j < |items|
    ensures Qualifies(items[j]) ==>
              DatapointContributions(rule, items[..j + 1]) ==
              DatapointContributions(rule, items[..j]) + [Contribution(rule, items[j])]
    ensures !Qualifies(items[j]) ==>
              DatapointContributions(rule, items[..j + 1]) == DatapointContributions(rule, items[..j])
  {
    assert items[..j + 1][..j] == items[..j];
  }

  /** The store after one more entry of the rules loop. */
  lemma BuildStep(rules: seq<Json>, i: nat, policy: InsertPolicy)
    requires AllWellFormed(rules) && i < |rules|
    ensures InsertAll([], ContributionsUpTo(rules, i + 1), policy) ==
            InsertAll(InsertAll([], ContributionsUpTo(rules, i), policy), RuleContributions(rules[i]), policy)
  {
    InsertAllAppend([], ContributionsUpTo(rules, i), RuleContributions(rules[i]), policy);
  }
}
