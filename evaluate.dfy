/**
 * Evaluation of one batch of asset values against the trigger store:
 * `evalData`, `checkDoubleLimit`, `evalAsset` and the verdict loop of
 * `plugin_eval`. Each loop of the plugin is a method proved against a
 * recursive function that follows the loop step by step; lemmas then state
 * what that function computes in closed form.
 */
module Evaluate {
  import opened Json
  import opened Store

  /** `evalData`: a number strictly greater than the limit. Anything that is
      not a number never hits. */
  predicate EvalData(point: Json, limit: real)
  {
    point.JNumber? && point.n > limit
  }

  /** Equality never triggers; anything above the limit does. */
  lemma EvalDataStrict(v: real, limit: real)
    ensures !EvalData(JNumber(limit), limit)
    ensures EvalData(JNumber(v), limit) <==> v > limit
  {
  }

  /** The array branch of `checkDoubleLimit`: one iteration per element, each
      of which tests the whole array `point` rather than the element, and
      stops at the first hit. */
  function ArrayScan(point: Json, rest: seq<Json>, limit: real): (hit: bool)
    requires point.JArray?
    ensures !hit
  {
    if rest == [] then false
    else if EvalData(point, limit) then true
    else ArrayScan(point, rest[1..], limit)
  }

  /** What `checkDoubleLimit` returns, branch by branch. */
  function LimitHit(point: Json, limit: real): (hit: bool)
    ensures hit <==> point.JNumber? && point.n > limit
  {
    match point
    case JNumber(_) => EvalData(point, limit)
    case JArray(items) => ArrayScan(point, items, limit)
    case _ => false
  }

  /** `checkDoubleLimit`. A number is compared with the limit; an array is
      walked element by element, but no array ever hits. */
  method CheckDoubleLimit(point: Json, limit: real) returns (ret: bool)
    ensures ret == LimitHit(point, limit)
    ensures ret <==> point.JNumber? && point.n > limit
  {
    ret := false;
    match point {
      case JNumber(_) =>
        ret := EvalData(point, limit);
      case JArray(items) =>
        var i := 0;
        while i < |items|
          invariant 0 <= i <= |items|
          invariant !ret
          invariant ArrayScan(point, items, limit) == ArrayScan(point, items[i..], limit)
        {
          ret := EvalData(point, limit);
          if ret {
            break;
          }
          assert items[i..][1..] == items[i + 1..];
          i := i + 1;
        }
      case _ =>
    }
  }

  /** The comparison the element loop was written for: some element of the
      array is a number above the limit. */
  predicate AnyElementHits(items: seq<Json>, limit: real)
  {
    exists i :: 0 <= i < |items| && EvalData(items[i], limit)
  }

  /** An array whose elements exceed the limit still does not hit. */
  lemma ArrayNeverHits()
    ensures AnyElementHits([JNumber(10.0), JNumber(200.0), JNumber(5.0)], 101.3)
    ensures !LimitHit(JArray([JNumber(10.0), JNumber(200.0), JNumber(5.0)]), 101.3)
  {
    assert EvalData([JNumber(10.0), JNumber(200.0), JNumber(5.0)][1], 101.3);
  }

  /** One configured datapoint against the asset's values: absent means no
      hit, present means the limit check. */
  predicate DatapointHit(assetValue: Json, dp: Datapoint)
  {
    match Member(assetValue, dp.name)
    case None => false
    case Some(point) => LimitHit(point, dp.threshold)
  }

  /** The datapoint loop of `evalAsset` from some point on: `acc` is the
      flag so far; each datapoint overwrites it, and without evalAll the loop
      stops at the first hit. */
  function ScanDatapoints(assetValue: Json, dps: seq<Datapoint>, evalAll: bool, acc: bool): bool
  {
    if dps == [] then acc
    else
      var hit := DatapointHit(assetValue, dps[0]);
      if hit && !evalAll then true
      else ScanDatapoints(assetValue, dps[1..], evalAll, hit)
  }

  /** What `evalAsset` returns for an asset's values and its trigger. */
  function AssetVerdict(assetValue: Json, t: Trigger): bool
  {
    ScanDatapoints(assetValue, t.datapoints, t.evalAll, false)
  }

  /** `evalAsset`. */
  method EvalAsset(assetValue: Json, t: Trigger) returns (assetEval: bool)
    requires t.datapoints != [] ==> assetValue.JObject?
    ensures assetEval == AssetVerdict(assetValue, t)
  {
    assetEval := false;
    var evalAll := t.evalAll;
    var dps := t.datapoints;
    var i := 0;
    while i < |dps|
      invariant 0 <= i <= |dps|
      invariant AssetVerdict(assetValue, t) == ScanDatapoints(assetValue, dps[i..], evalAll, assetEval)
    {
      var name := dps[i].name;
      var point := Member(assetValue, name);
      if point.Some? {
        assetEval := CheckDoubleLimit(point.value, dps[i].threshold);
        if assetEval && !evalAll {
          break;
        }
      } else {
        assetEval := false;
      }
      assert dps[i..][1..] == dps[i + 1..];
      i := i + 1;
    }
  }

  /** Without evalAll, the scan hits iff some remaining datapoint hits. */
  lemma {:induction false} ScanAny(assetValue: Json, dps: seq<Datapoint>, acc: bool)
    requires dps != []
    ensures ScanDatapoints(assetValue, dps, false, acc) <==>
            exists i :: 0 <= i < |dps| && DatapointHit(assetValue, dps[i])
  {
    if !DatapointHit(assetValue, dps[0]) && |dps| > 1 {
      ScanAny(assetValue, dps[1..], false);
      assert forall i :: 1 <= i < |dps| ==> dps[i] == dps[1..][i - 1];
    }
  }

  /** With evalAll, the scan keeps only the last datapoint's result. */
  lemma {:induction false} ScanLast(assetValue: Json, dps: seq<Datapoint>, acc: bool)
    requires dps != []
    ensures ScanDatapoints(assetValue, dps, true, acc) == DatapointHit(assetValue, dps[|dps| - 1])
  {
    if |dps| > 1 {
      ScanLast(assetValue, dps[1..], DatapointHit(assetValue, dps[0]));
    }
  }

  /** `evalAsset` without eval_all_datapoints: true iff some configured
      datapoint is present and over its limit. */
  lemma AssetVerdictAny(assetValue: Json, t: Trigger)
    requires !t.evalAll
    ensures AssetVerdict(assetValue, t) <==>
            exists i :: 0 <= i < |t.datapoints| && DatapointHit(assetValue, t.datapoints[i])
  {
    if t.datapoints != [] {
      ScanAny(assetValue, t.datapoints, false);
    }
  }

  /** `evalAsset` with eval_all_datapoints: the result of the last datapoint
      alone; no datapoints gives false. */
  lemma AssetVerdictLast(assetValue: Json, t: Trigger)
    requires t.evalAll
    ensures AssetVerdict(assetValue, t) ==
            (t.datapoints != [] && DatapointHit(assetValue, t.datapoints[|t.datapoints| - 1]))
  {
    if t.datapoints != [] {
      ScanLast(assetValue, t.datapoints, false);
    }
  }

  /** The reading of eval_all_datapoints the comments describe: every
      configured datapoint hits. */
  predicate AllDatapointsHit(assetValue: Json, t: Trigger)
  {
    t.datapoints != [] &&
    forall i :: 0 <= i < |t.datapoints| ==> DatapointHit(assetValue, t.datapoints[i])
  }

  /** With eval_all_datapoints, every datapoint hitting implies a hit, but a
      hit does not need every datapoint: an asset whose first datapoint is
      under its limit and whose last is over it still hits. */
  lemma AllDatapointsVersusLast(assetValue: Json, t: Trigger)
    requires t.evalAll
    ensures AllDatapointsHit(assetValue, t) ==> AssetVerdict(assetValue, t)
    ensures var u := Trigger([Datapoint("a", 10.0), Datapoint("b", 10.0)], "", 0, true);
            var v := JObject([("a", JNumber(5.0)), ("b", JNumber(50.0))]);
            AssetVerdict(v, u) && !AllDatapointsHit(v, u)
  {
    AssetVerdictLast(assetValue, t);
    var u := Trigger([Datapoint("a", 10.0), Datapoint("b", 10.0)], "", 0, true);
    var v := JObject([("a", JNumber(5.0)), ("b", JNumber(50.0))]);
    AssetVerdictLast(v, u);
    assert Member(v, "a") == Some(JNumber(5.0));
    assert Member(v, "b") == Some(JNumber(50.0));
    assert !DatapointHit(v, u.datapoints[0]);
  }

  /** One asset's contribution to the verdict: false if the batch has no
      values for it. */
  predicate AssetOutcome(doc: Json, entry: (string, Trigger))
  {
    match Member(doc, entry.0)
    case None => false
    case Some(assetValue) => AssetVerdict(assetValue, entry.1)
  }

  /** The asset loop of `plugin_eval` from some point on: every asset
      overwrites the verdict so far. */
  function ScanAssets(doc: Json, store: Store, acc: bool): bool
  {
    if store == [] then acc
    else ScanAssets(doc, store[1..], AssetOutcome(doc, store[0]))
  }

  /** What `plugin_eval` reads from a batch without checking its type: the
      batch is an object when there is an asset to look up, and the values of
      each stored asset with datapoints are an object. */
  predicate ReadableBatch(store: Store, doc: Json)
  {
    (store != [] ==> doc.JObject?) &&
    forall i :: 0 <= i < |store| && store[i].1.datapoints != [] && Has(doc, store[i].0) ==>
      Get(doc, store[i].0).JObject?
  }

  /** The verdict `plugin_eval` computes for a parsed batch. */
  function Verdict(store: Store, doc: Json): bool
  {
    ScanAssets(doc, store, false)
  }

  lemma {:induction false} ScanAssetsLast(doc: Json, store: Store, acc: bool)
    requires store != []
    ensures ScanAssets(doc, store, acc) == AssetOutcome(doc, store[|store| - 1])
  {
    if |store| > 1 {
      ScanAssetsLast(doc, store[1..], AssetOutcome(doc, store[0]));
    }
  }

  /** The verdict is the outcome of the last asset in key order; an empty
      store gives false. */
  lemma VerdictIsLast(store: Store, doc: Json)
    ensures Verdict(store, doc) == (store != [] && AssetOutcome(doc, store[|store| - 1]))
  {
    if store != [] {
      ScanAssetsLast(doc, store, false);
    }
  }

  /** The verdict the comments describe: every configured asset hits. */
  predicate AllAssetsHit(store: Store, doc: Json)
  {
    store != [] && forall i :: 0 <= i < |store| ==> AssetOutcome(doc, store[i])
  }

  /** The two readings agree on a single asset; on more assets every asset
      hitting implies the verdict, but the verdict can be true when an
      earlier asset misses or is absent. */
  lemma AllAssetsVersusLast(store: Store, doc: Json)
    ensures AllAssetsHit(store, doc) ==> Verdict(store, doc)
    ensures |store| == 1 ==> (Verdict(store, doc) <==> AllAssetsHit(store, doc))
    ensures var t := Trigger([Datapoint("random", 101.3)], "", 0, true);
            var s := [("flow", t), ("pressure", t)];
            var d := JObject([("pressure", JObject([("random", JNumber(150.0))]))]);
            Verdict(s, d) && !AllAssetsHit(s, d)
  {
    VerdictIsLast(store, doc);
    var t := Trigger([Datapoint("random", 101.3)], "", 0, true);
    var s := [("flow", t), ("pressure", t)];
    var d := JObject([("pressure", JObject([("random", JNumber(150.0))]))]);
    VerdictIsLast(s, d);
    assert Member(d, "flow") == None;
    assert Member(d, "pressure") == Some(JObject([("random", JNumber(150.0))]));
    AssetVerdictLast(JObject([("random", JNumber(150.0))]), t);
    assert !AssetOutcome(d, s[0]);
  }
}
