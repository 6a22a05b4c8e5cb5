# OutOfBound notification rule, modelled in Dafny

FogLAMP's OutOfBound rule plugin watches readings of assets and raises a
notification when a datapoint goes over a configured threshold. This project
models its core, the file `plugin.cpp`:

- **Configuration** (`OutOfBound::configure`). It reads a parsed `rules` document
  and rebuilds the trigger store. The store maps each asset name to a trigger:
  the datapoints with their thresholds, an evaluation mode, an interval and the
  eval-all-datapoints flag.
- **Evaluation** (`evalData`, `checkDoubleLimit`, `evalAsset`, `plugin_eval`). It
  checks a batch of readings against the store and latches the rule's state as
  triggered or cleared.
- **Reporting** (`plugin_triggers`, `plugin_reason`). These write the store and
  the latched state as JSON text.

Modules, one file each:

| file | module | contents |
|---|---|---|
| `json.dfy` | `Json` | A parsed JSON value. Member lookup takes the first match. |
| `store.dfy` | `Store` | The trigger store: a sequence of (asset, trigger) pairs sorted by key, like the `std::map` it models. Also the `addTrigger` insertion and its two possible policies. |
| `evaluate.dfy` | `Evaluate` | The evaluator, as functions, with loop methods proved against them. |
| `config.dfy` | `Config` | What `configure` reads from each rule entry, as functions, and the store they build. |
| `report.dfy` | `Report` | The triggers document, and a decoder that reads it back. |
| `plugin.dfy` | `Plugin` | The rule object as a class with the store and the latched state as fields. Its methods are `configure`, `plugin_eval` and `plugin_triggers`, written as loops, and `plugin_reason`. |
| `scenarios.dfy` | `Scenarios` | Whole-rule properties on concrete documents. |

The methods of `Plugin.OutOfBound` follow the C++ loops statement by statement.
Each one is proved against a function of `Evaluate`, `Config` or `Report`, and
the lemmas about those functions carry the properties.

Three named assumptions stand in for `BuiltinRule`, whose source is not part of
this model:

- **`addTrigger` on an existing asset.** This is the parameter `InsertPolicy`.
  Under `FirstWins` the first trigger stays, as `std::map::insert` would. Under
  `AppendDatapoints` the new datapoints are appended to the existing trigger,
  which keeps its mode, interval and flag. Every store property is proved for
  both policies.
- **`hasTriggers()`** is "the store is not empty".
- **The latched state of a new rule** is `StateCleared`.

## Behaviour as written

The model follows the code. In three places the code's comments and the rule's
documentation say something else. The commented reading is defined beside the
literal one and the two are compared:

- **The multi-asset verdict.** `plugin_eval` returns the verdict of the **last**
  asset in key order (`Evaluate.VerdictIsLast`). The comments at plugin.cpp:276-277
  and :297 describe an AND over all assets. `Evaluate.AllAssetsVersusLast` proves
  that the AND implies the literal verdict, and that the two agree for one asset.
  It also gives a two-asset store where they differ.
- **All datapoints.** With `eval_all_datapoints` true, `evalAsset` returns the
  verdict of the **last** configured datapoint (`Evaluate.AssetVerdictLast`). It
  does not return the AND of all of them (`Evaluate.AllDatapointsVersusLast`).
- **Arrays.** An array value never triggers: the loop at plugin.cpp:409 passes the
  whole array to `evalData`, not the element (`Evaluate.ArrayScan`,
  `Evaluate.ArrayNeverHits`). In `Scenarios.FlowArrayVerdict`, `[10, 200, 5]` does
  not trigger against a threshold of 101.3, although one element is over it.

The default configuration's only rule entry has an empty asset name, so
`configure` skips it (plugin.cpp:543-546, `Scenarios.DefaultEntrySkipped`). A rule
shaped like it, with an asset name and `Window` selected, gives its window length
under `time_window` (plugin.cpp:110-114). `configure` reads only `time_interval`
(plugin.cpp:566), so such a rule records interval 0 (`Scenarios.WindowEntryFields`).

## Model

| member | source | states |
|---|---|---|
| Json.FindFirst | plugin.cpp:283-290 | A member is found iff the object has that key, and the value found is the first one under that key. |
| Store.LessIrreflexive | plugin.cpp:221-224 | No asset name orders before itself in the map's key order. |
| Store.LessTransitive | plugin.cpp:221-224 | The map's key order is transitive. |
| Store.LessTotal | plugin.cpp:221-224 | Any two distinct asset names are ordered one way or the other. |
| Store.LessAsymmetric | plugin.cpp:221-224 | Two names are never each before the other. |
| Store.KeysMembership | plugin.cpp:221-224 | An asset is in the store's key set iff some entry of the store carries it. |
| Store.Lookup | plugin.cpp:282-293 | Looking an asset up finds a trigger iff the asset is a key, and the trigger found is the one stored under it. |
| Store.SortedKeyCount | plugin.cpp:221-224 | A sorted store has exactly one entry per distinct asset. |
| Store.Insert | plugin.cpp:609 | `addTrigger` keeps the store sorted, adds the asset to its keys, grows it by one entry exactly when the asset is new, and leaves the least key first. |
| Store.InsertLookup | plugin.cpp:609 | After `addTrigger`, other assets keep their triggers. A new asset gets the given trigger. An existing one keeps its trigger under FirstWins, and has the new datapoints appended under AppendDatapoints. |
| Store.InsertAll | plugin.cpp:534-615 | A series of `addTrigger` calls keeps the store sorted and adds exactly the called assets to its keys. |
| Store.InsertAllAppend | plugin.cpp:534-620 | Two series of `addTrigger` calls applied in turn equal their concatenation. |
| Store.FirstWinsKeepsFirst | plugin.cpp:609 | Under FirstWins, the store built by a series of calls holds, for each asset, the trigger of that asset's first call. |
| Store.KeyedDatapoints | plugin.cpp:609 | An asset never called contributes no datapoints. |
| Store.KeyedDatapointsSnoc | plugin.cpp:609 | One more call adds its datapoints to the datapoints gathered for its own asset only. |
| Store.AppendGathersAll | plugin.cpp:609 | Under AppendDatapoints, each asset holds its first call's trigger with the datapoints of all its calls, in call order. |
| Evaluate.EvalDataStrict | plugin.cpp:345-382 | `evalData` on a number holds iff the value is strictly over the limit; a value equal to the limit never triggers. |
| Evaluate.ArrayScan | plugin.cpp:404-414 | The loop over an array's elements never reports a hit, whatever the elements. |
| Evaluate.LimitHit | plugin.cpp:393-420 | `checkDoubleLimit` holds iff the value is a number strictly over the limit: arrays, strings, booleans, null and objects give false. |
| Evaluate.CheckDoubleLimit | plugin.cpp:393-420 | The switch with its array loop returns true iff the value is a number strictly over the limit. |
| Evaluate.ArrayNeverHits | plugin.cpp:384-414 | An array with an element over the limit still does not trigger. |
| Evaluate.EvalAsset | plugin.cpp:431-476 | The datapoint loop, with its overwrites and early break, computes the asset verdict. It requires an object asset value when there are datapoints to look up. |
| Evaluate.ScanAny | plugin.cpp:438-466 | Without eval-all, the scan holds iff some configured datapoint is present and over its threshold. |
| Evaluate.ScanLast | plugin.cpp:438-472 | With eval-all, the scan gives the verdict of the last configured datapoint. |
| Evaluate.AssetVerdictAny | plugin.cpp:431-476 | Without eval-all, an asset triggers iff some configured datapoint is present and over its threshold. |
| Evaluate.AssetVerdictLast | plugin.cpp:431-476 | With eval-all, an asset triggers iff its datapoint list is non-empty and its last datapoint is present and over threshold. |
| Evaluate.AllDatapointsVersusLast | plugin.cpp:460-466 | With eval-all, all datapoints over threshold implies a trigger. The converse fails: two datapoints where only the last is over still trigger. |
| Evaluate.ScanAssetsLast | plugin.cpp:278-295 | The asset loop's result is the outcome of the last asset in key order; an absent asset counts as false. |
| Evaluate.VerdictIsLast | plugin.cpp:271-295 | The verdict is false for an empty store, else the outcome of the last asset in key order. |
| Evaluate.AllAssetsVersusLast | plugin.cpp:275-297 | All assets triggering implies the verdict, with equivalence for one asset. A two-asset store where only the last triggers gives true without all assets triggering. |
| Config.ToUnsigned | plugin.cpp:553-569 | A 32-bit signed interval stored into an unsigned variable is below 2^32 and equal to it modulo 2^32. A non-negative one is unchanged. |
| Config.ConfigureStore | plugin.cpp:500-624 | `configure` leaves the store sorted. |
| Config.BuildStore | plugin.cpp:534-620 | The store rebuilt from a rules array is sorted. Its keys are exactly the assets of the `addTrigger` calls the array produces. |
| Config.ConfigureReplaces | plugin.cpp:504-523 | A parse failure, a missing `rules`, or a `rules` that is not an array leaves the store unchanged. A `rules` array replaces the old store whatever it held, and an empty array empties it. |
| Config.ConfigureIdempotent | plugin.cpp:500-624 | Configuring twice with the same document gives the same store as configuring once. |
| Config.QualifyingPositionsSnoc | plugin.cpp:588-598 | One more datapoint element adds one accepted position if it has a string name and a numeric `trigger_value`, and none otherwise. |
| Config.DatapointContributionsExact | plugin.cpp:586-615 | An entry's datapoint loop makes as many `addTrigger` calls as there are elements with a string name and a numeric `trigger_value`. Its calls are exactly those elements' triggers, each holding the element's name and threshold with the entry's mode, interval and flag. The order of the calls is given by `Config.DatapointContributionsStep`. |
| Config.ContributionsSound | plugin.cpp:534-620 | Every `addTrigger` call of the first n entries comes from one of those entries. |
| Config.ContributionsComplete | plugin.cpp:534-620 | Every call an entry makes is among the calls of any prefix of the array that includes that entry. |
| Config.FromEntry | plugin.cpp:541-612 | A call from an entry is for the entry's non-empty asset name and records the entry's mode, interval and flag with a non-empty datapoint list. |
| Config.OriginOf | plugin.cpp:534-612 | Every call of a rules array comes from an entry with a qualifying datapoint and carries that entry's asset, mode, interval and flag. |
| Config.AssetOfContribution | plugin.cpp:541-609 | Every called asset is the name of an entry with a qualifying datapoint. |
| Config.ContributionOfAsset | plugin.cpp:541-609 | The name of every entry with a qualifying datapoint is called. |
| Config.ConfiguredAssets | plugin.cpp:534-615 | An asset is in the configured store iff some entry names it and has a datapoint with a name and a numeric threshold. The store has one entry per such asset. |
| Config.FirstContributionOrigin | plugin.cpp:541-609 | The first call for an asset comes from an entry naming it, and records that entry's mode, interval and flag. |
| Config.StoredAgainstFirst | plugin.cpp:609 | The stored trigger of an asset keeps the first call's mode, interval and flag. It is that call's trigger under FirstWins, and gathers every call's datapoints under AppendDatapoints. |
| Config.StoredTrigger | plugin.cpp:541-612 | Each stored trigger carries the mode, interval and flag of an entry that names its asset, and has at least one datapoint. Under AppendDatapoints it holds the datapoints of all the asset's calls. |
| Config.KeyedDatapointsCover | plugin.cpp:609 | An asset called with a non-empty datapoint list gathers a non-empty list. |
| Config.RecordedFields | plugin.cpp:548-584 | The flag is false only for an explicit boolean false. A non-empty mode comes from `window_data.value` under a "Window" evaluation, otherwise the mode is empty. A non-zero interval needs a non-empty mode and a `time_interval` key, and is below 2^32. |
| Config.DatapointContributionsStep | plugin.cpp:588-612 | One more datapoint element adds one `addTrigger` call if it qualifies, and none otherwise. |
| Config.BuildStep | plugin.cpp:534-620 | Processing one more rule entry applies that entry's calls to the store built so far. |
| Report.Decimal | plugin.cpp:230 | `to_string` of an interval is a non-empty run of digits without a leading zero. |
| Report.DecimalRoundTrip | plugin.cpp:230 | The decimal text of an interval reads back as the same number. |
| Report.EntriesSnoc | plugin.cpp:226-240 | Listing one more asset appends a separator and that asset's entry. |
| Report.TriggersEmpty | plugin.cpp:213-218 | The triggers document is exactly `{"triggers" : []}` iff the store is empty. |
| Report.Listing | plugin.cpp:220-243 | The triggers document's listing has one entry per stored asset, in the store's order. |
| Report.ListingAscending | plugin.cpp:221-224 | For a sorted store the listing names each asset once, in ascending key order. |
| Report.IntervalRoundTrip | plugin.cpp:229-230 | The `" : <interval> }` tail of an entry decodes back to the interval. |
| Report.ModeRoundTrip | plugin.cpp:229-230 | A quote-free mode followed by its interval decodes back to both. |
| Report.TailRoundTrip | plugin.cpp:227-235 | When the mode holds no double quote, an entry's tail decodes to the mode and interval when the mode is non-empty, and to no mode when it is empty. |
| Report.EntryRoundTrip | plugin.cpp:226-235 | When neither the asset name nor the mode holds a double quote, a single asset entry decodes back to its asset name, mode and interval. |
| Report.EntriesRoundTrip | plugin.cpp:220-241 | When no name or mode holds a double quote, the separated entries of a non-empty store decode back to the store's listing, in the store's order. |
| Report.TriggersRoundTrip | plugin.cpp:205-249 | When no name or mode holds a double quote, the triggers document decodes back to the store's listing, in the store's order, with each asset's mode and interval exactly when the mode is non-empty. For the sorted stores the rule keeps, that is each asset once in key order (`Report.ListingAscending`). |
| Plugin.StateOf | plugin.cpp:297-298 | The latched state is StateTriggered iff the verdict is true. |
| Plugin.ReasonWord | plugin.cpp:313 | The reason word is "triggered" iff the state is StateTriggered, and "cleared" for StateCleared. |
| Plugin.DecodeReason | plugin.cpp:312-314 | A decoded reason document is exactly the document written for that state. |
| Plugin.ReasonRoundTrip | plugin.cpp:308-317 | The reason document decodes back to the state it was written for. |
| Plugin.WrittenPrefix | plugin.cpp:220-243 | After i assets the text built so far is the opening plus the first i entries, followed by a separator unless all assets are written. |
| Plugin.WriteEntry | plugin.cpp:226-235 | The appended pieces of one asset form that asset's entry. |
| Plugin.WritePiece | plugin.cpp:226-240 | One iteration appends the asset's entry and, unless it is the last asset, a separator. |
| Plugin.OutOfBound.constructor | plugin.cpp:484-486 | A new rule has an empty store and the cleared state. |
| Plugin.OutOfBound.RemoveTriggers | plugin.cpp:518-521 | Removing the triggers empties the store. |
| Plugin.OutOfBound.AddTrigger | plugin.cpp:609 | `addTrigger` inserts into the store under the rule's policy and keeps it sorted. |
| Plugin.OutOfBound.SetState | plugin.cpp:298 | `setState` latches the verdict. |
| Plugin.OutOfBound.Configure | plugin.cpp:500-624 | `configure` leaves the store as `ConfigureStore` describes: unchanged without a `rules` array, otherwise rebuilt from the array. |
| Plugin.OutOfBound.AddEntriesTriggers | plugin.cpp:534-620 | The loop over rule entries builds, from the empty store, exactly the store of the array's `addTrigger` calls. |
| Plugin.OutOfBound.AddEntryTriggers | plugin.cpp:536-615 | One rule entry applies exactly its own calls to the store. Skipped entries and entries with an empty asset name apply none. |
| Plugin.OutOfBound.AddDatapointTriggers | plugin.cpp:586-615 | The datapoint loop applies one call per qualifying element, in order. |
| Plugin.OutOfBound.AddDatapointTrigger | plugin.cpp:590-612 | A datapoint with a string name and a numeric `trigger_value` inserts its trigger. Any other datapoint leaves the store unchanged. |
| Plugin.OutOfBound.Eval | plugin.cpp:261-301 | A parse failure returns false and keeps the latched state. Otherwise the verdict is that of the last asset in key order, and the state latches it. It requires what the loop reads unchecked: an object batch when the store is not empty, and object values for the stored assets it looks into. |
| Plugin.OutOfBound.Reason | plugin.cpp:308-317 | `plugin_reason` returns the reason document for the latched state. |
| Plugin.OutOfBound.Triggers | plugin.cpp:205-249 | `plugin_triggers` returns the triggers document of the store. When no asset name or mode holds a double quote, that document reads back as the store's listing (`Report.TriggersRoundTrip`). |
| Scenarios.FlowEntryContributes | plugin.cpp:536-612 | A rule for asset "flow" with datapoint "random" over 101.3 makes exactly one call, for "flow", with an empty mode, interval 0 and eval-all. |
| Scenarios.FlowConfigured | plugin.cpp:500-624 | Configuring that rule, from any store and under either policy, leaves exactly the one "flow" trigger. |
| Scenarios.FlowVerdicts | plugin.cpp:261-317 | For that trigger, 150.0 triggers, 50.0 clears, a batch without "flow" clears, and the reasons read "triggered" and "cleared". |
| Scenarios.FlowArrayVerdict | plugin.cpp:393-420 | The array `[10, 200, 5]` does not trigger against 101.3 although an element exceeds it. |
| Scenarios.DefaultEntrySkipped | plugin.cpp:541-546 | An entry shaped like the default configuration's, with its empty asset name, is skipped and makes no `addTrigger` call. |
| Scenarios.WindowEntryFields | plugin.cpp:548-584 | A default-shaped entry naming an asset and selecting "Window" records mode "Average" and interval 0, because its window length is under `time_window`. Its string "true" for `eval_all_datapoints` leaves the flag at its default, true. |
| Scenarios.WindowEntryContributes | plugin.cpp:536-612 | That entry makes exactly one call: its asset, its one datapoint, mode "Average", interval 0, eval-all. |
| Scenarios.EmptyRulesReport | plugin.cpp:504-523 | An empty `rules` array empties any store, and the triggers document is then `{"triggers" : []}`. |
| Scenarios.ReportedAssets | plugin.cpp:534-615 | The configured store has one entry per distinct asset name with a qualifying datapoint. When no name or mode holds a double quote, its triggers document reads back as the store's listing, which has exactly that many assets. |

## Left out

- Locking: `lockConfig`/`unlockConfig` and the mutex (include/outofbound.h:28-32) are about concurrency. Each operation is modelled as atomic, and `plugin_eval`'s unlocked read of the store is not modelled.
- JSON text parsing: rapidjson's `Parse`/`HasParseError` is a foreign library. Operations take the parsed value, with `None` for a parse failure.
- String escaping: asset names and modes are copied into the triggers text unescaped, as the source does. The read-back lemma `Report.TriggersRoundTrip` therefore requires names and modes free of double quotes.
- Number representation: JSON numbers are `real`. The `GetInt`/`GetInt64`/`GetDouble` conversions of `evalData` (plugin.cpp:358-377), and their overflow on large values, are not modelled.
- Evaluate.EvalDataStrict: compares the exact real value, not the value after `GetInt`/`GetInt64` truncation of out-of-range integers.
- The non-float datapoint branch (plugin.cpp:454-457) is not modelled. `configure` only builds float thresholds (plugin.cpp:599-600), so that branch cannot occur.
- `BuiltinRule` internals are not part of this model: `addTrigger`, `removeTriggers`, `hasTriggers`, `getTriggers`, `setState`, `getState`. They are stated as the assumptions above.
- Plugin.OutOfBound.constructor: the initial latched state StateCleared is an assumption, because the `BuiltinRule` constructor is not part of this model.
- Plugin lifecycle and metadata are static or trivial and are not modelled: `plugin_info`, the default configuration text, `plugin_init`/`plugin_shutdown` (`new`/`delete`), and `plugin_reconfigure` (builds a `ConfigCategory`, then calls `configure`).
- Plugin.OutOfBound.Configure: requires a well-formed configuration (`Config.WellFormedConfig`, `Config.WellFormedRule`). The parsed document must be an object. Each rule entry must be an object. An entry that is not skipped must have an `asset` object with a string `name`. A named entry must also have `datapoints`, string `value`s in `evaluation_data`/`window_data`, and a 32-bit integer `time_interval` where that is read. Each element of its `datapoints` array must be an object, with a string `name` where it has one. The source reads all of these without checking, and rapidjson's behaviour is undefined when one is missing or has another type. This includes entries with only one of `asset`/`datapoints`, which the skip test at plugin.cpp:536 lets through.
- Json.Member: looking up a key in a non-object finds nothing, where rapidjson asserts. The configuration methods and the evaluation methods (`Plugin.OutOfBound.Configure`, `Plugin.OutOfBound.Eval`, `Evaluate.EvalAsset`) require object values wherever the source makes such a lookup. So this total answer only appears in the functions, which are also stated for documents the rule cannot safely read.
- Config.IsInt: the model keeps JSON numbers as reals and cannot tell a JSON integer from a whole-valued double. So a `time_interval` written as `30.0` or `3e1` is read as 30, where the source's `interval.GetInt()` (plugin.cpp:569) is undefined for a double: a debug build asserts, and a release build reads 0 for 30.0. Only whole numbers within the 32-bit signed range are accepted by the well-formedness precondition.
- Embedded NUL characters: `configure` copies each string into a `std::string` from the `const char*` that `GetString()` returns (plugin.cpp:542, 557, 564, 594), and that copy stops at the first NUL. The model compares and stores strings whole. So an asset name, descriptor value or datapoint name holding `\u0000` is not cut there: an asset name `"\u0000x"` is stored in the model, where the source reads an empty name and skips the entry.
- The log messages for entries without datapoints and for a missing `time_interval` (plugin.cpp:571-574, 616-619) have no effect on state and are left out.
