/**
 * The keyed stores of lib/MultiSignal.js and lib/SuperSignal.js share one
 * shape: `_signals` maps string keys to raw values or signal objects, and
 * `set(obj)` writes the own keys of `obj` one by one. This module holds the
 * map-level part of both, generic in the signal class `S`.
 */
module Stores {
  import opened Values

  /** An entry of `_signals`: a raw value, or a signal of class `S` created by `provide`. */
  datatype Entry<S> = Raw(value: Value) | Sig(signal: S)

  /** `true` when every key of `pairs` occurs once, as the own keys of a JavaScript object do. */
  predicate DistinctKeys(pairs: seq<(string, Value)>)
  {
    forall i, j :: 0 <= i < j < |pairs| ==> pairs[i].0 != pairs[j].0
  }

  /** The entry `_set(key, v)` leaves under `key`: a signal stays, anything else becomes `v`. */
  function AfterSet<S>(m: map<string, Entry<S>>, key: string, v: Value): (e: Entry<S>)
  {
    if key in m && m[key].Sig? then m[key] else Raw(v)
  }

  /** No two keys share a signal. */
  ghost predicate DistinctSignals<S>(m: map<string, Entry<S>>)
  {
    forall k1, k2 ::
      (k1 in m && k2 in m && m[k1].Sig? && m[k2].Sig? && m[k1].signal == m[k2].signal) ==> k1 == k2
  }

  /** The keys of `pairs`: the own keys of the object they list. */
  function KeysOf(pairs: seq<(string, Value)>): (keys: set<string>)
  {
    set i | 0 <= i < |pairs| :: pairs[i].0
  }

  /**
   * What `set(obj)` has done to the map `before` once the first `n` pairs
   * are written: their keys are present, each holding `AfterSet`, and every
   * other key keeps its entry.
   */
  ghost predicate SetAllSoFar<S>(before: map<string, Entry<S>>, cur: map<string, Entry<S>>, pairs: seq<(string, Value)>, n: nat)
    requires n <= |pairs|
  {
    && cur.Keys == before.Keys + KeysOf(pairs[..n])
    && (forall k :: k in before && k !in KeysOf(pairs[..n]) ==> cur[k] == before[k])
    && (forall i :: 0 <= i < n ==> cur[pairs[i].0] == AfterSet(before, pairs[i].0, pairs[i].1))
  }

  /**
   * One step of `set(obj)` on the map: the next key still has its original
   * entry, the signals are still distinct, and writing that key extends
   * `SetAllSoFar` by one pair.
   */
  lemma SetAllStep<S>(before: map<string, Entry<S>>, cur: map<string, Entry<S>>, pairs: seq<(string, Value)>, n: nat)
    requires DistinctKeys(pairs) && DistinctSignals(before)
    requires n < |pairs| && SetAllSoFar(before, cur, pairs, n)
    ensures DistinctSignals(cur)
    ensures pairs[n].0 in before ==> cur[pairs[n].0] == before[pairs[n].0]
    ensures pairs[n].0 !in before ==> pairs[n].0 !in cur
    ensures SetAllSoFar(before, cur[pairs[n].0 := AfterSet(cur, pairs[n].0, pairs[n].1)], pairs, n + 1)
  {
    var key := pairs[n].0;
    assert KeysOf(pairs[..n + 1]) == KeysOf(pairs[..n]) + {key} by {
      assert pairs[..n + 1] == pairs[..n] + [pairs[n]];
    }
    assert key !in KeysOf(pairs[..n]) by {
      forall i | 0 <= i < n ensures pairs[..n][i].0 != key { assert pairs[..n][i] == pairs[i]; }
    }
    forall k | k in cur && cur[k].Sig? ensures k in before && cur[k] == before[k] {
      if k in before && k in KeysOf(pairs[..n]) {
        var i :| 0 <= i < n && pairs[..n][i].0 == k;
        assert pairs[i].0 == k;
      }
    }
  }

  /**
   * The value `set(obj)` has written into each signal of `before` once the
   * first `n` pairs are done: a pair whose key holds a signal writes its
   * value there; a pair for a raw or missing key writes no signal.
   */
  ghost function Written<S>(before: map<string, Entry<S>>, pairs: seq<(string, Value)>, n: nat): (w: map<S, Value>)
    requires n <= |pairs|
  {
    if n == 0 then map[]
    else
      var w := Written(before, pairs, n - 1);
      var key := pairs[n - 1].0;
      if key in before && before[key].Sig? then w[before[key].signal := pairs[n - 1].1] else w
  }

  /**
   * With distinct keys and distinct signals no later pair overwrites what an
   * earlier one wrote: the signal under the `i`-th key ends up with the
   * `i`-th value.
   */
  lemma {:induction false} WrittenAt<S>(before: map<string, Entry<S>>, pairs: seq<(string, Value)>, n: nat, i: nat)
    requires DistinctKeys(pairs) && DistinctSignals(before)
    requires i < n <= |pairs| && pairs[i].0 in before && before[pairs[i].0].Sig?
    ensures before[pairs[i].0].signal in Written(before, pairs, n)
    ensures Written(before, pairs, n)[before[pairs[i].0].signal] == pairs[i].1
  {
    if i < n - 1 {
      WrittenAt(before, pairs, n - 1, i);
      assert pairs[n - 1].0 != pairs[i].0;
    }
  }
}
