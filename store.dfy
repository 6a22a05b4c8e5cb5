/**
 * The trigger store of the OutOfBound rule: a map from asset name to the
 * rule trigger configured for that asset. The store is an ordered map, so it
 * is modelled as a sequence of (asset, trigger) pairs in strictly ascending
 * key order, which is also the order every loop over it follows.
 */
module Store {
  import opened Json

  /** A configured datapoint of an asset and its numeric threshold. The only
      threshold type the configuration builds is a float. */
  datatype Datapoint = Datapoint(name: string, threshold: real)

  /** A rule trigger: the asset's datapoints, the window evaluation mode
      (empty for single-item evaluation), the window interval in seconds and
      the eval-all-datapoints flag. */
  datatype Trigger = Trigger(datapoints: seq<Datapoint>, evaluation: string, interval: nat, evalAll: bool)

  type Store = seq<(string, Trigger)>

  /** What adding a trigger for an asset that already has one does. The base
      rule class is not part of this model, so both readings are kept:
      `FirstWins` is the insert of an ordered map (the existing entry stays),
      `AppendDatapoints` appends the new trigger's datapoints to the existing
      trigger, which keeps its evaluation mode, interval and flag. */
  datatype InsertPolicy = FirstWins | AppendDatapoints

  /** Lexicographic string order, character by character, a proper prefix
      first: the key order of the ordered map. */
  predicate Less(a: string, b: string)
  {
    if a == [] then b != []
    else if b == [] then false
    else if a[0] != b[0] then a[0] < b[0]
    else Less(a[1..], b[1..])
  }

  lemma {:induction false} LessIrreflexive(a: string)
    ensures !Less(a, a)
  {
    if a != [] {
      LessIrreflexive(a[1..]);
    }
  }

  lemma {:induction false} LessTransitive(a: string, b: string, c: string)
    requires Less(a, b) && Less(b, c)
    ensures Less(a, c)
  {
    if a != [] && b != [] && c != [] && a[0] == b[0] == c[0] {
      LessTransitive(a[1..], b[1..], c[1..]);
    }
  }

  lemma {:induction false} LessTotal(a: string, b: string)
    requires a != b
    ensures Less(a, b) || Less(b, a)
  {
    if a != [] && b != [] && a[0] == b[0] {
      assert a == [a[0]] + a[1..] && b == [b[0]] + b[1..];
      LessTotal(a[1..], b[1..]);
    }
  }

  lemma LessAsymmetric(a: string, b: string)
    requires Less(a, b)
    ensures !Less(b, a)
  {
    if Less(b, a) {
      LessTransitive(a, b, a);
      LessIrreflexive(a);
    }
  }

  /** Keys strictly ascending, hence distinct. */
  predicate Sorted(s: Store)
  {
    forall i, j :: 0 <= i < j < |s| ==> Less(s[i].0, s[j].0)
  }

  /** The assets a store (or a run of additions) names. */
  function Keys(s: Store): set<string>
  {
    if s == [] then {} else {s[0].0} + Keys(s[1..])
  }

  /** A key is in `Keys(s)` iff some entry of `s` has it. */
  lemma {:induction false} KeysMembership(s: Store)
    ensures forall k :: k in Keys(s) <==> exists i :: 0 <= i < |s| && s[i].0 == k
  {
    if s != [] {
      KeysMembership(s[1..]);
      assert forall i :: 1 <= i < |s| ==> s[i] == s[1..][i - 1];
    }
  }

  /** Every key of a sorted store is its first key or above it. */
  lemma KeysAbove(s: Store, k: string)
    requires Sorted(s) && s != [] && k in Keys(s)
    ensures k == s[0].0 || Less(s[0].0, k)
  {
    KeysMembership(s);
  }

  /** The trigger stored for `key`, if any. */
  function Lookup(s: Store, key: string): (r: Option<Trigger>)
    ensures r.Some? <==> key in Keys(s)
    ensures r.Some? ==> exists i :: 0 <= i < |s| && s[i] == (key, r.value)
  {
    if s == [] then None
    else if s[0].0 == key then Some(s[0].1)
    else
      var r := Lookup(s[1..], key);
      assert r.Some? ==> exists i :: 1 <= i < |s| && s[i] == (key, r.value) by {
        if r.Some? {
          var i :| 0 <= i < |s[1..]| && s[1..][i] == (key, r.value);
          assert s[i + 1] == (key, r.value);
        }
      }
      r
  }

  /** An existing trigger after an AppendDatapoints insertion of `t`. */
  function Merge(existing: Trigger, t: Trigger): Trigger
  {
    existing.(datapoints := existing.datapoints + t.datapoints)
  }

  /** Adding trigger `t` for asset `key`. */
  function Insert(s: Store, key: string, t: Trigger, policy: InsertPolicy): (r: Store)
    requires Sorted(s)
    ensures Sorted(r)
    ensures Keys(r) == Keys(s) + {key}
    ensures |r| == if key in Keys(s) then |s| else |s| + 1
    ensures r != [] && (r[0].0 == key || (s != [] && r[0].0 == s[0].0))
  {
    if s == [] then [(key, t)]
    else if s[0].0 == key then
      if policy == FirstWins then s
      else
        var r := [(key, Merge(s[0].1, t))] + s[1..];
        assert r[1..] == s[1..];
        r
    else if Less(key, s[0].0) then
      ConsSorted((key, t), s);
      BelowFirstIsNew(s, key);
      [(key, t)] + s
    else
      LessTotal(key, s[0].0);
      SortedTail(s);
      var rest := Insert(s[1..], key, t, policy);
      assert s[1..] != [] ==> s[1..][0] == s[1];
      ConsSorted(s[0], rest);
      var r := [s[0]] + rest;
      assert r[1..] == rest;
      r
  }

  lemma ConsSorted(head: (string, Trigger), s: Store)
    requires Sorted(s)
    requires s != [] ==> Less(head.0, s[0].0)
    ensures Sorted([head] + s)
  {
    var r := [head] + s;
    forall i, j | 0 <= i < j < |r| ensures Less(r[i].0, r[j].0) {
      if i == 0 && j > 1 {
        LessTransitive(head.0, s[0].0, s[j - 1].0);
      }
    }
  }

  lemma SortedTail(s: Store)
    requires Sorted(s) && s != []
    ensures Sorted(s[1..])
  {
    forall i, j | 0 <= i < j < |s| - 1 ensures Less(s[1..][i].0, s[1..][j].0) {
      assert s[1..][i] == s[i + 1] && s[1..][j] == s[j + 1];
    }
  }

  lemma BelowFirstIsNew(s: Store, key: string)
    requires Sorted(s) && s != [] && Less(key, s[0].0)
    ensures key !in Keys(s)
  {
    if key in Keys(s) {
      KeysAbove(s, key);
      LessIrreflexive(key);
      LessAsymmetric(key, s[0].0);
    }
  }

  /** A sorted store holds each key once, so it has as many entries as keys. */
  lemma {:induction false} SortedKeyCount(s: Store)
    requires Sorted(s)
    ensures |Keys(s)| == |s|
  {
    if s != [] {
      SortedTail(s);
      SortedKeyCount(s[1..]);
      assert s[0].0 !in Keys(s[1..]) by {
        if s[0].0 in Keys(s[1..]) {
          KeysMembership(s[1..]);
          var i :| 0 <= i < |s[1..]| && s[1..][i].0 == s[0].0;
          assert Less(s[0].0, s[i + 1].0);
          LessIrreflexive(s[0].0);
        }
      }
    }
  }

  /** The insert contract of the ordered map: only `key` changes; a new key
      gets `t`; an existing one keeps its trigger (FirstWins) or gets `t`'s
      datapoints appended (AppendDatapoints). */
  lemma {:induction false} InsertLookup(s: Store, key: string, t: Trigger, policy: InsertPolicy, k: string)
    requires Sorted(s)
    ensures Lookup(Insert(s, key, t, policy), k) ==
      if k != key then Lookup(s, k)
      else if Lookup(s, key).None? then Some(t)
      else if policy == FirstWins then Lookup(s, key)
      else Some(Merge(Lookup(s, key).value, t))
  {
    if s == [] || s[0].0 == key {
    } else if Less(key, s[0].0) {
      BelowFirstIsNew(s, key);
    } else {
      SortedTail(s);
      InsertLookup(s[1..], key, t, policy, k);
    }
  }

  /** The store after the triggers `cs` are added to `s`, in order. */
  function InsertAll(s: Store, cs: seq<(string, Trigger)>, policy: InsertPolicy): (r: Store)
    requires Sorted(s)
    ensures Sorted(r)
    ensures Keys(r) == Keys(s) + Keys(cs)
  {
    if cs == [] then s
    else
      var init := cs[..|cs| - 1];
      var last := cs[|cs| - 1];
      assert cs == init + [last];
      KeysSnoc(init, last);
      Insert(InsertAll(s, init, policy), last.0, last.1, policy)
  }

  lemma KeysSnoc(cs: seq<(string, Trigger)>, c: (string, Trigger))
    ensures Keys(cs + [c]) == Keys(cs) + {c.0}
  {
    if cs != [] {
      assert (cs + [c])[1..] == cs[1..] + [c];
      KeysSnoc(cs[1..], c);
    }
  }

  lemma {:induction false} LookupSnoc(cs: seq<(string, Trigger)>, c: (string, Trigger), k: string)
    ensures Lookup(cs + [c], k) ==
      if Lookup(cs, k).Some? then Lookup(cs, k)
      else if c.0 == k then Some(c.1)
      else None
  {
    if cs != [] {
      assert (cs + [c])[1..] == cs[1..] + [c];
      LookupSnoc(cs[1..], c, k);
    }
  }

  /** Under FirstWins every asset keeps the trigger of its first addition. */
  lemma {:induction false} FirstWinsKeepsFirst(cs: seq<(string, Trigger)>, k: string)
    ensures Lookup(InsertAll([], cs, FirstWins), k) == Lookup(cs, k)
  {
    if cs != [] {
      var init := cs[..|cs| - 1];
      var last := cs[|cs| - 1];
      assert cs == init + [last];
      FirstWinsKeepsFirst(init, k);
      InsertLookup(InsertAll([], init, FirstWins), last.0, last.1, FirstWins, k);
      LookupSnoc(init, last, k);
    }
  }

  /** The datapoints of every addition for asset `k`, in order. */
  function KeyedDatapoints(cs: seq<(string, Trigger)>, k: string): (dps: seq<Datapoint>)
    ensures k !in Keys(cs) ==> dps == []
  {
    if cs == [] then []
    else (if cs[0].0 == k then cs[0].1.datapoints else []) + KeyedDatapoints(cs[1..], k)
  }

  lemma {:induction false} KeyedDatapointsSnoc(cs: seq<(string, Trigger)>, c: (string, Trigger), k: string)
    ensures KeyedDatapoints(cs + [c], k) == KeyedDatapoints(cs, k) + (if c.0 == k then c.1.datapoints else [])
  {
    if cs != [] {
      assert (cs + [c])[1..] == cs[1..] + [c];
      KeyedDatapointsSnoc(cs[1..], c, k);
    }
  }

  /** Under AppendDatapoints every asset holds the datapoints of all its
      additions, in order, with the mode, interval and flag of the first. */
  lemma {:induction false} AppendGathersAll(cs: seq<(string, Trigger)>, k: string)
    ensures Lookup(InsertAll([], cs, AppendDatapoints), k) ==
      if Lookup(cs, k).None? then None
      else Some(Lookup(cs, k).value.(datapoints := KeyedDatapoints(cs, k)))
  {
    if cs != [] {
      var init := cs[..|cs| - 1];
      var last := cs[|cs| - 1];
      assert cs == init + [last];
      var before := InsertAll([], init, AppendDatapoints);
      assert InsertAll([], cs, AppendDatapoints) == Insert(before, last.0, last.1, AppendDatapoints);
      AppendGathersAll(init, k);
      InsertLookup(before, last.0, last.1, AppendDatapoints, k);
      LookupSnoc(init, last, k);
      KeyedDatapointsSnoc(init, last, k);
      if last.0 != k {
        assert KeyedDatapoints(cs, k) == KeyedDatapoints(init, k);
      } else if Lookup(init, k).None? {
        assert KeyedDatapoints(cs, k) == last.1.datapoints;
      } else {
        var e := Lookup(init, k).value;
        assert Lookup(before, k) == Some(e.(datapoints := KeyedDatapoints(init, k)));
        assert KeyedDatapoints(cs, k) == KeyedDatapoints(init, k) + last.1.datapoints;
      }
    }
  }

  /** Adding two runs of triggers one after the other is adding their
      concatenation. */
  lemma {:induction false} InsertAllAppend(s: Store, a: seq<(string, Trigger)>, b: seq<(string, Trigger)>, policy: InsertPolicy)
    requires Sorted(s)
    ensures InsertAll(s, a + b, policy) == InsertAll(InsertAll(s, a, policy), b, policy)
  {
    if b != [] {
      var init := b[..|b| - 1];
      var last := b[|b| - 1];
      assert b == init + [last];
      assert a + b == (a + init) + [last];
      InsertAllAppend(s, a, init, policy);
    } else {
      assert a + b == a;
    }
  }

  /** Adding one more trigger after a run. */
  lemma InsertAllSnoc(s: Store, cs: seq<(string, Trigger)>, c: (string, Trigger), policy: InsertPolicy)
    requires Sorted(s)
    ensures InsertAll(s, cs + [c], policy) == Insert(InsertAll(s, cs, policy), c.0, c.1, policy)
  {
    assert (cs + [c])[..|cs|] == cs;
  }

}
