/**
 * lib/MultiSignal.js: a string-keyed store whose entries are raw values or
 * signals. Writes and reads go through to a signal entry; `provide` turns
 * an entry into a signal on demand.
 *
 * The signal class is injected in the source (`MultiSignal.prototype.Signal`);
 * here it is the `Signal` of lib/Signal.js, the class the store is written
 * for.
 */
module MultiSignals {
  import opened Values
  import opened Signals
  import opened Stores

  /** A result of `_get` as written: a value, or the signal object itself. */
  datatype Got = Plain(value: Value) | SignalItself(signal: Signal)

  class MultiSignal {
    /** `_signals` */
    var entries: map<string, Entry<Signal>>

    /** The signals stored under the keys of `pairs`. */
    function SignalsOf(pairs: seq<(string, Value)>): set<Signal>
      reads this
    {
      set i | 0 <= i < |pairs| && pairs[i].0 in entries && entries[pairs[i].0].Sig? :: entries[pairs[i].0].signal
    }

    /** The signal stored under `key`, if any, as a set. */
    function SignalAt(key: string): set<Signal>
      reads this
    {
      if key in entries && entries[key].Sig? then {entries[key].signal} else {}
    }

    /** The entry under `key` holds a signal (the source's `constructor === this.Signal`). */
    predicate IsSignalEntry(key: string)
      reads this
    {
      key in entries && entries[key].Sig?
    }

    /**
     * No two keys share a signal. `provide` always stores a new one, and this
     * holds only because a `Value` cannot carry a signal: the source can put
     * a provided signal under a second key with `set`.
     */
    ghost predicate Valid()
      reads this
    {
      DistinctSignals(entries)
    }

    constructor ()
      ensures Valid() && entries == map[]
    {
      entries := map[];
    }

    /**
     * `get(key)` / `_get(key)`: a signal entry reads through to the signal,
     * a raw entry gives its value, an unset key gives `undefined`.
     */
    function Get(key: string): (r: Value)
      reads this, SignalAt(key)`value
      ensures key !in entries ==> r == Undefined
      ensures IsSignalEntry(key) ==> r == entries[key].signal.value
      ensures key in entries && !IsSignalEntry(key) ==> r == entries[key].value
    {
      if key !in entries then Undefined
      else match entries[key]
        case Raw(v) => v
        case Sig(s) => s.value
    }

    /**
     * `_get(key)` as written: its `instanceof this.Signal` test never holds
     * for a signal built by a factory that returns a function (lib/Signal.js
     * and the test's signal both do), so a signal entry yields the signal
     * object itself instead of its value.
     */
    function GetAsWritten(key: string): (r: Got)
      reads this
      ensures r.SignalItself? <==> IsSignalEntry(key)
      ensures r.SignalItself? ==> r.signal == entries[key].signal
      ensures r.Plain? ==> r.value == Get(key)
    {
      if key in entries && entries[key].Sig? then SignalItself(entries[key].signal)
      else if key in entries then Plain(entries[key].value)
      else Plain(Undefined)
    }

    /**
     * `set(key, value)` / `_set(key, value)`: writes into the signal under
     * `key`, leaving the map alone, or else replaces that key's raw entry.
     * Returns the store, and reports the calls the signal's write makes.
     */
    method Set(key: string, v: Value) returns (r: MultiSignal, calls: seq<Call>)
      requires Valid()
      modifies this`entries, SignalAt(key)`value
      ensures Valid() && r == this
      ensures entries == old(entries)[key := AfterSet(old(entries), key, v)]
      ensures old(IsSignalEntry(key)) ==>
        var s := entries[key].signal;
        && s.value == Transformed(s.setter, v)
        && calls == WriteCalls(old(s.value), s.setter, s.listeners, v, s)
      ensures !old(IsSignalEntry(key)) ==> calls == []
      ensures Get(key) == if old(IsSignalEntry(key)) then Transformed(entries[key].signal.setter, v) else v
    {
      r := this;
      if key in entries && entries[key].Sig? {
        var s := entries[key].signal;
        calls := s.Write(v);
      } else {
        entries := entries[key := Raw(v)];
        calls := [];
      }
    }

    /**
     * `set(obj)`: `_set` for every own key of `obj`, given here as its
     * key/value pairs in enumeration order. Keys not in `obj` keep their
     * entry, and only their signals' values may change.
     */
    method SetAll(pairs: seq<(string, Value)>) returns (r: MultiSignal)
      requires Valid() && DistinctKeys(pairs)
      modifies this`entries, SignalsOf(pairs)`value
      ensures Valid() && r == this
      ensures entries.Keys == old(entries.Keys) + KeysOf(pairs)
      ensures forall k :: k in old(entries) && k !in KeysOf(pairs) ==> entries[k] == old(entries[k])
      ensures forall i :: 0 <= i < |pairs| ==> entries[pairs[i].0] == AfterSet(old(entries), pairs[i].0, pairs[i].1)
      ensures forall i :: 0 <= i < |pairs| && old(IsSignalEntry(pairs[i].0)) ==>
        var s := old(entries[pairs[i].0]).signal;
        s.value == Transformed(s.setter, pairs[i].1)
    {
      r := this;
      ghost var before := entries;
      var n := 0;
      while n < |pairs|
        invariant 0 <= n <= |pairs| && Valid()
        invariant SetAllSoFar(before, entries, pairs, n)
        invariant forall s: Signal :: s in Written(before, pairs, n) ==> allocated(s) && s.value == Transformed(s.setter, Written(before, pairs, n)[s])
      {
        SetAllStep(before, entries, pairs, n);
        SetNext(before, pairs, n);
        n := n + 1;
      }
      assert pairs[..n] == pairs;
      forall i | 0 <= i < |pairs| && old(IsSignalEntry(pairs[i].0))
        ensures old(entries[pairs[i].0]).signal.value == Transformed(old(entries[pairs[i].0]).signal.setter, pairs[i].1)
      {
        WrittenAt(before, pairs, n, i);
      }
    }

    /** One pass of the loop of `set(obj)`: `_set` of the `n`-th pair. */
    method SetNext(ghost before: map<string, Entry<Signal>>, pairs: seq<(string, Value)>, n: nat)
      requires DistinctKeys(pairs) && DistinctSignals(before)
      requires n < |pairs| && SetAllSoFar(before, entries, pairs, n)
      requires forall s: Signal :: s in Written(before, pairs, n) ==> allocated(s) && s.value == Transformed(s.setter, Written(before, pairs, n)[s])
      modifies this`entries, SignalAt(pairs[n].0)`value
      ensures Valid() && SetAllSoFar(before, entries, pairs, n + 1)
      ensures forall s: Signal :: s in Written(before, pairs, n + 1) ==> allocated(s) && s.value == Transformed(s.setter, Written(before, pairs, n + 1)[s])
    {
      var (key, v) := pairs[n];
      SetAllStep(before, entries, pairs, n);
      ghost var w := Written(before, pairs, n);
      if IsSignalEntry(key) {
        ghost var s := entries[key].signal;
        assert before[key] == entries[key];
        var _, _ := Set(key, v);
        assert Written(before, pairs, n + 1) == w[s := v];
      } else {
        var _, _ := Set(key, v);
        assert Written(before, pairs, n + 1) == w;
      }
    }

    /** `get()`: a fresh object with exactly the stored keys, each mapped to the read-through `Get(key)`. */
    method GetAll() returns (result: map<string, Value>)
      ensures result.Keys == entries.Keys
      ensures forall k :: k in result ==> result[k] == Get(k)
    {
      result := map[];
      var todo := entries.Keys;
      while todo != {}
        invariant todo <= entries.Keys
        invariant result.Keys == entries.Keys - todo
        invariant forall k :: k in result ==> result[k] == Get(k)
        decreases todo
      {
        var k :| k in todo;
        result := result[k := Get(k)];
        todo := todo - {k};
      }
    }

    /**
     * `provide(key)`: the signal under `key`; when there is none, a new
     * signal seeded with the previous `_get(key)` replaces the entry. The
     * seeding write notifies nobody, since the new signal has no listeners.
     */
    method Provide(reg: Registry, key: string) returns (s: Signal)
      requires Valid() && reg.Valid()
      modifies this`entries, reg`contributions
      ensures Valid() && reg.Valid()
      ensures old(IsSignalEntry(key)) ==>
        && s == old(entries[key].signal)
        && entries == old(entries)
        && reg.contributions == old(reg.contributions)
      ensures !old(IsSignalEntry(key)) ==>
        && fresh(s)
        && entries == old(entries)[key := Sig(s)]
        && s.value == old(Get(key)) && s.listeners == None && s.setter == None
        && reg.contributions == old(reg.contributions)[s := 0]
    {
      if key in entries && entries[key].Sig? {
        s := entries[key].signal;
        return;
      }
      s := new Signal(reg, Undefined);
      var seed := Get(key);
      var calls := s.Write(seed);
      assert calls == [];
      entries := entries[key := Sig(s)];
    }
  }
}
