/**
 * The OutOfBound rule object: its trigger store and latched state (kept by
 * the base rule class), `configure`, and the plugin entry points
 * `plugin_eval`, `plugin_reason` and `plugin_triggers` that act on it. Each
 * method is proved against the function of the same behaviour in the
 * `Config`, `Evaluate` and `Report` modules.
 */
module Plugin {
  import opened Json
  import opened Store
  import opened Evaluate
  import opened Config
  import opened Report

  /** The latched notification state of the rule. */
  datatype RuleState = StateTriggered | StateCleared

  /** The state `setState` records for a verdict. */
  function StateOf(verdict: bool): (state: RuleState)
    ensures state == StateTriggered <==> verdict
  {
    if verdict then StateTriggered else StateCleared
  }

  const ReasonOpen: string := "{ \"reason\": \""
  const ReasonClose: string := "\" }"

  /** The word `plugin_reason` reports for a state. */
  function ReasonWord(state: RuleState): (w: string)
    ensures w == "triggered" <==> state == StateTriggered
    ensures state == StateCleared ==> w == "cleared"
  {
    if state == StateTriggered then "triggered" else "cleared"
  }

  /** The document `plugin_reason` returns for a state. */
  function ReasonText(state: RuleState): string
  {
    ReasonOpen + ReasonWord(state) + ReasonClose
  }

  /** The state a reason document reports, if it is one. */
  function DecodeReason(text: string): (r: Option<RuleState>)
    ensures r.Some? ==> text == ReasonText(r.value)
  {
    var n := |ReasonOpen|;
    var m := |ReasonClose|;
    if |text| < n + m || text[..n] != ReasonOpen || text[|text| - m..] != ReasonClose then None
    else
      var word := text[n..|text| - m];
      assert text == ReasonOpen + word + ReasonClose;
      if word == "triggered" then Some(StateTriggered)
      else if word == "cleared" then Some(StateCleared)
      else None
  }

  /** The reason document names the state it was written for. */
  lemma ReasonRoundTrip(state: RuleState)
    ensures DecodeReason(ReasonText(state)) == Some(state)
  {
    var text := ReasonText(state);
    assert text[..|ReasonOpen|] == ReasonOpen;
    assert text[|text| - |ReasonClose|..] == ReasonClose;
    assert text[|ReasonOpen|..|text| - |ReasonClose|] == ReasonWord(state);
  }

  /** What `plugin_triggers` writes for the asset at position `i`: its
      entry, and a separator unless it is the last. */
  function Piece(store: Store, i: nat): string
    requires i < |store|
  {
    var e := Entry(store[i].0, store[i].1);
    if i + 1 < |store| then e + Separator else e
  }

  /** The text `plugin_triggers` has written after the first `i` assets of
      a non-empty store. */
  function Written(store: Store, i: nat): string
    requires i <= |store|
  {
    if i == 0 then TriggersOpen else Written(store, i - 1) + Piece(store, i - 1)
  }

  /** After `i` assets the text holds the opening and their entries, and a
      separator when more follow. */
  lemma {:induction false} WrittenPrefix(store: Store, i: nat)
    requires 0 < i <= |store|
    ensures i < |store| ==> Written(store, i) == TriggersOpen + Entries(store[..i]) + Separator
    ensures i == |store| ==> Written(store, i) == TriggersOpen + Entries(store)
  {
    assert store[..i] == store[..i - 1] + [store[i - 1]];
    assert store[..|store|] == store;
    var e := Entry(store[i - 1].0, store[i - 1].1);
    if i > 1 {
      WrittenPrefix(store, i - 1);
      var b := Entries(store[..i - 1]);
      EntriesSnoc(store[..i - 1], store[i - 1].0, store[i - 1].1);
      if i < |store| {
        Regroup(TriggersOpen, b, e, Separator);
      } else {
        RegroupLast(TriggersOpen, b, e);
      }
    } else {
      assert store[..1] == [store[0]];
    }
  }

  /** Associativity steps of `WrittenPrefix`, kept apart so that its own
      proof stays small. */
  lemma Regroup(a: string, b: string, e: string, sep: string)
    ensures a + b + sep + (e + sep) == a + (b + sep + e) + sep
  {
  }

  lemma RegroupLast(a: string, b: string, e: string)
    ensures a + b + Separator + e == a + (b + Separator + e)
  {
  }

  /** The entry `plugin_triggers` writes for one asset. */
  method WriteEntry(name: string, t: Trigger) returns (entry: string)
    ensures entry == Entry(name, t)
  {
    entry := AssetOpen + name + "\"";
    if t.evaluation != "" {
      entry := entry + ModeOpen + t.evaluation + ModeColon + Decimal(t.interval) + EntryClose;
    } else {
      entry := entry + EntryClose;
    }
  }

  /** The body of `plugin_triggers`' loop for the asset at position `i`. */
  method WritePiece(store: Store, i: nat) returns (piece: string)
    requires i < |store|
    ensures piece == Piece(store, i)
  {
    piece := WriteEntry(store[i].0, store[i].1);
    if i + 1 < |store| {
      piece := piece + Separator;
    }
  }

  class OutOfBound {
    /** What the base rule's `addTrigger` does with an asset it already holds. */
    const policy: InsertPolicy
    /** The base rule's map from asset name to trigger, in key order. */
    var triggers: Store
    /** The base rule's latched state. */
    var state: RuleState

    ghost predicate Valid()
      reads this
    {
      Sorted(triggers)
    }

    /** A rule with no triggers, not triggered. */
    constructor (policy: InsertPolicy)
      ensures Valid()
      ensures this.policy == policy && triggers == [] && state == StateCleared
    {
      this.policy := policy;
      triggers := [];
      state := StateCleared;
    }

    predicate HasTriggers()
      reads this
    {
      triggers != []
    }

    method RemoveTriggers()
      modifies this`triggers
      ensures Valid() && triggers == []
    {
      triggers := [];
    }

    method AddTrigger(asset: string, t: Trigger)
      requires Valid()
      modifies this`triggers
      ensures Valid() && triggers == Insert(old(triggers), asset, t, policy)
    {
      triggers := Insert(triggers, asset, t, policy);
    }

    method SetState(verdict: bool)
      modifies this`state
      ensures state == StateOf(verdict)
    {
      state := StateOf(verdict);
    }

    /** `configure` on the parsed `rule_config` document (`None` when it
        does not parse). */
    method Configure(doc: Option<Json>)
      requires Valid() && WellFormedConfig(doc)
      modifies this`triggers
      ensures Valid() && triggers == ConfigureStore(old(triggers), doc, policy)
    {
      if doc.None? || !Has(doc.value, "rules") {
        return;
      }
      var rules := Get(doc.value, "rules");
      if !rules.JArray? {
        return;
      }
      if HasTriggers() {
        RemoveTriggers();
      }
      assert Rules(doc) == Some(rules.items);
      AddEntriesTriggers(rules.items);
    }

    /** The loop of `configure` over the rules array, from an empty store. */
    method AddEntriesTriggers(items: seq<Json>)
      requires Valid() && triggers == [] && AllWellFormed(items)
      modifies this`triggers
      ensures Valid() && triggers == BuildStore(items, policy)
    {
      var i := 0;
      while i < |items|
        invariant 0 <= i <= |items|
        invariant Valid()
        invariant triggers == InsertAll([], ContributionsUpTo(items, i), policy)
      {
        BuildStep(items, i, policy);
        AddEntryTriggers(items[i]);
        i := i + 1;
      }
    }

    /** One pass of `configure`'s loop over the rules array: the triggers of
        one rule entry. */
    method AddEntryTriggers(rule: Json)
      requires Valid() && WellFormedRule(rule)
      modifies this`triggers
      ensures Valid() && triggers == InsertAll(old(triggers), RuleContributions(rule), policy)
    {
      if !Has(rule, "asset") && !Has(rule, "datapoints") {
        return;
      }
      var asset := Get(rule, "asset");
      var assetName := Get(asset, "name").s;
      if assetName == "" {
        return;
      }
      var windowEvaluation := false;
      var windowData := "";
      var timeInterval: nat := 0;
      if Has(rule, "evaluation_data") {
        var evaluationData := Get(Get(rule, "evaluation_data"), "value").s;
        windowEvaluation := evaluationData == "Window";
      }
      if windowEvaluation && Has(rule, "window_data") {
        windowData := Get(Get(rule, "window_data"), "value").s;
        if windowData != "" && Has(rule, "time_interval") {
          timeInterval := ToUnsigned(Get(rule, "time_interval").n.Floor);
        }
      }
      var datapoints := Get(rule, "datapoints");
      var evalAll := true;
      if Has(rule, "eval_all_datapoints") && Get(rule, "eval_all_datapoints").JBool? {
        evalAll := Get(rule, "eval_all_datapoints").b;
      }
      assert windowData == WindowMode(rule);
      assert timeInterval == Interval(rule);
      if datapoints.JArray? {
        AddDatapointTriggers(rule, assetName, windowData, timeInterval, evalAll, datapoints.items);
      }
    }

    /** The loop of `configure` over an entry's datapoints array. */
    method AddDatapointTriggers(rule: Json, assetName: string, windowData: string, timeInterval: nat,
                                evalAll: bool, items: seq<Json>)
      requires Valid() && WellFormedRule(rule) && Active(rule)
      requires assetName == AssetName(rule) && windowData == WindowMode(rule)
      requires timeInterval == Interval(rule) && evalAll == EvalAllFlag(rule)
      requires forall i :: 0 <= i < |items| && Has(items[i], "name") ==> HasString(items[i], "name")
      modifies this`triggers
      ensures Valid() && triggers == InsertAll(old(triggers), DatapointContributions(rule, items), policy)
    {
      var j := 0;
      while j < |items|
        invariant 0 <= j <= |items|
        invariant Valid()
        invariant triggers == InsertAll(old(triggers), DatapointContributions(rule, items[..j]), policy)
      {
        ghost var done := DatapointContributions(rule, items[..j]);
        DatapointContributionsStep(rule, items, j);
        if Qualifies(items[j]) {
          InsertAllSnoc(old(triggers), done, Contribution(rule, items[j]), policy);
        }
        AddDatapointTrigger(rule, assetName, windowData, timeInterval, evalAll, items[j]);
        j := j + 1;
      }
      assert items[..j] == items;
    }

    /** One pass of the loop over an entry's datapoints array: a trigger
        for a datapoint with a name and a numeric trigger_value. */
    method AddDatapointTrigger(rule: Json, assetName: string, windowData: string, timeInterval: nat,
                               evalAll: bool, d: Json)
      requires Valid() && WellFormedRule(rule) && Active(rule)
      requires assetName == AssetName(rule) && windowData == WindowMode(rule)
      requires timeInterval == Interval(rule) && evalAll == EvalAllFlag(rule)
      requires Has(d, "name") ==> HasString(d, "name")
      modifies this`triggers
      ensures Valid()
      ensures Qualifies(d) ==>
                triggers == Insert(old(triggers), assetName, Contribution(rule, d).1, policy)
      ensures !Qualifies(d) ==> triggers == old(triggers)
    {
      if Has(d, "name") {
        var dataPointName := Get(d, "name").s;
        if Has(d, "trigger_value") && Get(d, "trigger_value").JNumber? {
          var maxVal := Get(d, "trigger_value").n;
          var trigger := Trigger([Datapoint(dataPointName, maxVal)], windowData, timeInterval, evalAll);
          AddTrigger(assetName, trigger);
        }
      }
    }

    /** `plugin_eval` on the parsed batch of asset values (`None` when it
        does not parse). */
    method Eval(input: Option<Json>) returns (verdict: bool)
      requires input.Some? ==> ReadableBatch(triggers, input.value)
      modifies this`state
      ensures input.None? ==> !verdict && state == old(state)
      ensures input.Some? ==> verdict == Verdict(triggers, input.value) && state == StateOf(verdict)
    {
      if input.None? {
        return false;
      }
      var doc := input.value;
      var eval := false;
      var i := 0;
      while i < |triggers|
        invariant 0 <= i <= |triggers|
        invariant Verdict(triggers, doc) == ScanAssets(doc, triggers[i..], eval)
      {
        var assetName := triggers[i].0;
        if !Has(doc, assetName) {
          eval := false;
        } else {
          var assetValue := Get(doc, assetName);
          eval := EvalAsset(assetValue, triggers[i].1);
        }
        assert triggers[i..][1..] == triggers[i + 1..];
        i := i + 1;
      }
      SetState(eval);
      verdict := eval;
    }

    /** `plugin_reason`. */
    method Reason() returns (text: string)
      ensures text == ReasonText(state)
    {
      text := ReasonOpen;
      text := text + (if state == StateTriggered then "triggered" else "cleared");
      text := text + ReasonClose;
    }

    /** `plugin_triggers`. */
    method Triggers() returns (text: string)
      ensures text == TriggersText(triggers)
    {
      if !HasTriggers() {
        return EmptyTriggers;
      }
      text := TriggersOpen;
      var i := 0;
      while i < |triggers|
        invariant 0 <= i <= |triggers|
        invariant text == Written(triggers, i)
      {
        var piece := WritePiece(triggers, i);
        text := text + piece;
        i := i + 1;
      }
      WrittenPrefix(triggers, |triggers|);
      text := text + TriggersClose;
    }
  }
}
