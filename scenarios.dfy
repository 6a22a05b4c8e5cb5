/**
 * End-to-end behaviour of the rule on concrete documents: a configuration
 * for asset "flow" with one datapoint "random" over 101.3, evaluated against
 * batches of values; an empty rules array; and how many assets the triggers
 * document lists for any rules array.
 */
module Scenarios {
  import opened Json
  import opened Store
  import opened Evaluate
  import opened Config
  import opened Report
  import opened Plugin

  /** A rule entry: asset `name`, one datapoint `random` with threshold
      `limit`, eval_all_datapoints true. */
  function RuleEntry(name: string, limit: real): Json
  {
    JObject([("asset", JObject([("name", JString(name))])),
             ("datapoints", JArray([JObject([("name", JString("random")), ("trigger_value", JNumber(limit))])])),
             ("eval_all_datapoints", JBool(true))])
  }

  function FlowConfig(): Json
  {
    JObject([("rules", JArray([RuleEntry("flow", 101.3)]))])
  }

  function FlowTrigger(): Trigger
  {
    Trigger([Datapoint("random", 101.3)], "", 0, true)
  }

  /** One value of datapoint `random` for asset `name`. */
  function Batch(name: string, value: Json): Json
  {
    JObject([(name, JObject([("random", value)]))])
  }

  lemma FlowEntryContributes()
    ensures WellFormedRule(RuleEntry("flow", 101.3)) && Active(RuleEntry("flow", 101.3))
    ensures RuleContributions(RuleEntry("flow", 101.3)) == [("flow", FlowTrigger())]
  {
    var rule := RuleEntry("flow", 101.3);
    var d := JObject([("name", JString("random")), ("trigger_value", JNumber(101.3))]);
    assert Member(rule, "asset") == Some(JObject([("name", JString("flow"))]));
    assert Member(rule, "datapoints") == Some(JArray([d]));
    assert Member(rule, "evaluation_data") == None;
    assert Member(rule, "eval_all_datapoints") == Some(JBool(true));
    assert Member(d, "name") == Some(JString("random"));
    assert Member(d, "trigger_value") == Some(JNumber(101.3));
    assert DatapointElements(rule) == [d];
    assert [d][..0] == [];
  }

  /** Configuring with the flow document, from any store, gives one trigger
      for "flow" under either insertion policy. */
  lemma FlowConfigured(store: Store, policy: InsertPolicy)
    requires Sorted(store)
    ensures WellFormedConfig(Some(FlowConfig()))
    ensures ConfigureStore(store, Some(FlowConfig()), policy) == [("flow", FlowTrigger())]
  {
    var rules := [RuleEntry("flow", 101.3)];
    assert Member(FlowConfig(), "rules") == Some(JArray(rules));
    FlowEntryContributes();
    assert Contributions(rules) == [("flow", FlowTrigger())];
  }

  /** For the flow trigger a value of 150.0 triggers, 50.0 clears, and a
      batch without the asset clears. */
  lemma FlowVerdicts()
    ensures Verdict([("flow", FlowTrigger())], Batch("flow", JNumber(150.0)))
    ensures !Verdict([("flow", FlowTrigger())], Batch("flow", JNumber(50.0)))
    ensures !Verdict([("flow", FlowTrigger())], JObject([]))
    ensures ReasonText(StateOf(true)) == "{ \"reason\": \"triggered\" }"
    ensures ReasonText(StateOf(false)) == "{ \"reason\": \"cleared\" }"
  {
    var store := [("flow", FlowTrigger())];
    VerdictIsLast(store, Batch("flow", JNumber(150.0)));
    VerdictIsLast(store, Batch("flow", JNumber(50.0)));
    VerdictIsLast(store, JObject([]));
    AssetVerdictLast(JObject([("random", JNumber(150.0))]), FlowTrigger());
    AssetVerdictLast(JObject([("random", JNumber(50.0))]), FlowTrigger());
    assert Member(JObject([("random", JNumber(150.0))]), "random") == Some(JNumber(150.0));
    assert Member(JObject([("random", JNumber(50.0))]), "random") == Some(JNumber(50.0));
  }

  /** An array value whose middle element exceeds the threshold does not
      trigger, since the array itself is compared with the threshold. */
  lemma FlowArrayVerdict()
    ensures var values := [JNumber(10.0), JNumber(200.0), JNumber(5.0)];
            AnyElementHits(values, 101.3) &&
            !Verdict([("flow", FlowTrigger())], Batch("flow", JArray(values)))
  {
    var values := [JNumber(10.0), JNumber(200.0), JNumber(5.0)];
    ArrayNeverHits();
    VerdictIsLast([("flow", FlowTrigger())], Batch("flow", JArray(values)));
    AssetVerdictLast(JObject([("random", JArray(values))]), FlowTrigger());
    assert Member(JObject([("random", JArray(values))]), "random") == Some(JArray(values));
  }

  /** A rule entry of the default configuration's shape: `asset` with a
      description, `eval_all_datapoints` given as the string "true", one float
      datapoint `random` with threshold 0.0, the `evaluation_data` value
      `evaluation`, window mode "Average", and a 30-second window under the
      key `time_window`, written as a descriptor object. */
  function DefaultShapedEntry(asset: string, evaluation: string): Json
  {
    JObject([("asset", JObject([("name", JString(asset)), ("description", JString("asset"))])),
             ("eval_all_datapoints", JString("true")),
             ("datapoints", JArray([JObject([("name", JString("random")), ("type", JString("float")),
                                             ("trigger_value", JNumber(0.0))])])),
             ("evaluation_data", JObject([("type", JString("enumeration")), ("value", JString(evaluation))])),
             ("window_data", JObject([("type", JString("enumeration")), ("value", JString("Average"))])),
             ("time_window", JObject([("type", JString("integer")), ("value", JNumber(30.0))]))])
  }

  /** An entry shaped like the default, with its empty asset name, is
      skipped. */
  lemma DefaultEntrySkipped()
    ensures WellFormedRule(DefaultShapedEntry("", "Single Item")) &&
            !Active(DefaultShapedEntry("", "Single Item")) &&
            RuleContributions(DefaultShapedEntry("", "Single Item")) == []
  {
    var rule := DefaultShapedEntry("", "Single Item");
    assert Member(rule, "asset") == Some(JObject([("name", JString("")), ("description", JString("asset"))]));
  }

  /** A default-shaped entry that names an asset and selects "Window" records
      mode "Average" but interval 0, since its window length is under
      `time_window` and only `time_interval` is read. The string "true" is not
      a boolean, so the eval-all flag keeps its default, true. */
  lemma WindowEntryFields()
    ensures WellFormedRule(DefaultShapedEntry("flow", "Window")) &&
            Active(DefaultShapedEntry("flow", "Window"))
    ensures WindowMode(DefaultShapedEntry("flow", "Window")) == "Average" &&
            Interval(DefaultShapedEntry("flow", "Window")) == 0 &&
            EvalAllFlag(DefaultShapedEntry("flow", "Window"))
  {
    var rule := DefaultShapedEntry("flow", "Window");
    var d := JObject([("name", JString("random")), ("type", JString("float")), ("trigger_value", JNumber(0.0))]);
    assert Member(rule, "asset") == Some(JObject([("name", JString("flow")), ("description", JString("asset"))]));
    assert Member(rule, "datapoints") == Some(JArray([d]));
    assert Member(rule, "evaluation_data") ==
           Some(JObject([("type", JString("enumeration")), ("value", JString("Window"))]));
    assert Member(rule, "window_data") ==
           Some(JObject([("type", JString("enumeration")), ("value", JString("Average"))]));
    assert Member(rule, "time_interval") == None;
    assert Member(rule, "eval_all_datapoints") == Some(JString("true"));
    assert Member(d, "name") == Some(JString("random"));
  }

  /** That entry's one datapoint gives one trigger with interval 0. */
  lemma WindowEntryContributes()
    ensures WellFormedRule(DefaultShapedEntry("flow", "Window")) &&
            RuleContributions(DefaultShapedEntry("flow", "Window")) ==
              [("flow", Trigger([Datapoint("random", 0.0)], "Average", 0, true))]
  {
    var rule := DefaultShapedEntry("flow", "Window");
    var d := JObject([("name", JString("random")), ("type", JString("float")), ("trigger_value", JNumber(0.0))]);
    WindowEntryFields();
    assert Member(rule, "datapoints") == Some(JArray([d]));
    assert Member(d, "name") == Some(JString("random"));
    assert Member(d, "trigger_value") == Some(JNumber(0.0));
    assert DatapointElements(rule) == [d];
    assert [d][..0] == [];
  }

  /** A `rules` array with no entries empties the store, and the triggers
      document is then the empty one. */
  lemma EmptyRulesReport(store: Store, policy: InsertPolicy)
    requires Sorted(store)
    ensures var doc := Some(JObject([("rules", JArray([]))]));
            WellFormedConfig(doc) && ConfigureStore(store, doc, policy) == [] &&
            TriggersText(ConfigureStore(store, doc, policy)) == EmptyTriggers
  {
    var doc := Some(JObject([("rules", JArray([]))]));
    assert Rules(doc) == Some([]);
  }

  /** The assets configured by a rules array. */
  function QualifyingAssets(rules: seq<Json>): set<string>
    requires AllWellFormed(rules)
  {
    set i | 0 <= i < |rules| && HasQualifying(rules[i]) :: AssetName(rules[i])
  }

  /** The triggers document lists one entry per distinct asset name of an
      entry with an accepted datapoint, each once, and reads back as the
      store's listing when no name or mode holds a double quote. */
  lemma ReportedAssets(rules: seq<Json>, policy: InsertPolicy)
    requires AllWellFormed(rules)
    ensures |BuildStore(rules, policy)| == |QualifyingAssets(rules)|
    ensures StoreQuoteFree(BuildStore(rules, policy)) ==>
              DecodeTriggers(TriggersText(BuildStore(rules, policy))) == Some(Listing(BuildStore(rules, policy))) &&
              |Listing(BuildStore(rules, policy))| == |QualifyingAssets(rules)|
  {
    var store := BuildStore(rules, policy);
    forall k ensures k in Keys(store) <==> k in QualifyingAssets(rules) {
      ConfiguredAssets(rules, policy, k);
    }
    assert Keys(store) == QualifyingAssets(rules);
    SortedKeyCount(store);
    if StoreQuoteFree(store) {
      TriggersRoundTrip(store);
    }
  }
}
