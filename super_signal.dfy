/**
 * lib/SuperSignal.js: the same keyed store as lib/MultiSignal.js, written
 * against a signal object with `get()` and `set(value)` methods and
 * recognised with `instanceof`.
 *
 * That signal object is not the one lib/Signal.js builds (which has no
 * `get`/`set` methods); it is modelled as an abstract read/write `Cell`
 * whose `set` reports the change it makes (the test file listens for a
 * `change` event; lib/SuperSignal.js itself does not).
 */
module SuperSignals {
  import opened Values
  import opened Stores

  /** The change a cell reports on `set`: the value before and the value after. */
  datatype Change = Change(oldValue: Value, newValue: Value)

  /** The read/write signal `SuperSignal` stores: `get()` reads, `set(v)` writes. */
  class Cell {
    var value: Value

    /** `new Signal()`: a cell holding `undefined`. */
    constructor ()
      ensures value == Undefined
    {
      value := Undefined;
    }

    /** `signal.set(v)`: stores `v` and reports the change from the previous value. */
    method Set(v: Value) returns (change: Change)
      modifies this`value
      ensures value == v
      ensures change == Change(old(value), v)
    {
      change := Change(value, v);
      value := v;
    }
  }

  class SuperSignal {
    /** `_signals` */
    var entries: map<string, Entry<Cell>>

    /** The cells stored under the keys of `pairs`. */
    function CellsOf(pairs: seq<(string, Value)>): set<Cell>
      reads this
    {
      set i | 0 <= i < |pairs| && pairs[i].0 in entries && entries[pairs[i].0].Sig? :: entries[pairs[i].0].signal
    }

    /** The cell stored under `key`, if any, as a set. */
    function CellAt(key: string): set<Cell>
      reads this
    {
      if key in entries && entries[key].Sig? then {entries[key].signal} else {}
    }

    /** The entry under `key` holds a cell (the source's `instanceof Signal`). */
    predicate IsSignalEntry(key: string)
      reads this
    {
      key in entries && entries[key].Sig?
    }

    /**
     * No two keys share a signal. `provide` always stores a new one, and this
     * holds only because a `Value` cannot carry a signal: the source can put
     * a provided signal under a second key with `set`.
     */
    ghost predicate Valid()
      reads this
    {
      DistinctSignals(entries)
    }

    /** `new SuperSignal()`: an empty store. */
    constructor ()
      ensures Valid() && entries == map[]
    {
      entries := map[];
    }

    /**
     * `get(key)` / `_get(key)`: a cell entry reads through `get()`, a raw
     * entry gives its value, an unset key gives `undefined`.
     */
    function Get(key: string): (r: Value)
      reads this, CellAt(key)`value
      ensures key !in entries ==> r == Undefined
      ensures IsSignalEntry(key) ==> r == entries[key].signal.value
      ensures key in entries && !IsSignalEntry(key) ==> r == entries[key].value
    {
      if key !in entries then Undefined
      else match entries[key]
        case Raw(v) => v
        case Sig(c) => c.value
    }

    /**
     * `set(key, value)` / `_set(key, value)`: `signal.set(value)` on the cell
     * under `key`, leaving the map alone, or else replaces that key's raw
     * entry. Returns the store, and the change the cell reports, if any.
     */
    method Set(key: string, v: Value) returns (r: SuperSignal, change: Option<Change>)
      requires Valid()
      modifies this`entries, CellAt(key)`value
      ensures Valid() && r == this
      ensures entries == old(entries)[key := AfterSet(old(entries), key, v)]
      ensures old(IsSignalEntry(key)) ==>
        entries[key].signal.value == v && change == Some(Change(old(Get(key)), v))
      ensures !old(IsSignalEntry(key)) ==> change == None
      ensures Get(key) == v
    {
      r := this;
      if key in entries && entries[key].Sig? {
        var c := entries[key].signal;
        var ch := c.Set(v);
        change := Some(ch);
      } else {
        entries := entries[key := Raw(v)];
        change := None;
      }
    }

    /**
     * `set(obj)`: `_set` for every own key of `obj`, given here as its
     * key/value pairs in enumeration order. Keys not in `obj` keep their
     * entry, and only their cells' values may change.
     */
    method SetAll(pairs: seq<(string, Value)>) returns (r: SuperSignal)
      requires Valid() && DistinctKeys(pairs)
      modifies this`entries, CellsOf(pairs)`value
      ensures Valid() && r == this
      ensures entries.Keys == old(entries.Keys) + KeysOf(pairs)
      ensures forall k :: k in old(entries) && k !in KeysOf(pairs) ==> entries[k] == old(entries[k])
      ensures forall i :: 0 <= i < |pairs| ==> entries[pairs[i].0] == AfterSet(old(entries), pairs[i].0, pairs[i].1)
      ensures forall i :: 0 <= i < |pairs| ==> Get(pairs[i].0) == pairs[i].1
    {
      r := this;
      ghost var before := entries;
      var n := 0;
      while n < |pairs|
        invariant 0 <= n <= |pairs| && Valid()
        invariant SetAllSoFar(before, entries, pairs, n)
        invariant forall s: Cell :: s in Written(before, pairs, n) ==> allocated(s) && s.value == Written(before, pairs, n)[s]
      {
        SetAllStep(before, entries, pairs, n);
        SetNext(before, pairs, n);
        n := n + 1;
      }
      assert pairs[..n] == pairs;
      forall i | 0 <= i < |pairs| ensures Get(pairs[i].0) == pairs[i].1 {
        if pairs[i].0 in before && before[pairs[i].0].Sig? {
          WrittenAt(before, pairs, n, i);
        }
      }
    }

    /** One pass of the loop of `set(obj)`: `_set` of the `n`-th pair. */
    method SetNext(ghost before: map<string, Entry<Cell>>, pairs: seq<(string, Value)>, n: nat)
      requires DistinctKeys(pairs) && DistinctSignals(before)
      requires n < |pairs| && SetAllSoFar(before, entries, pairs, n)
      requires forall s: Cell :: s in Written(before, pairs, n) ==> allocated(s) && s.value == Written(before, pairs, n)[s]
      modifies this`entries, CellAt(pairs[n].0)`value
      ensures Valid() && SetAllSoFar(before, entries, pairs, n + 1)
      ensures forall s: Cell :: s in Written(before, pairs, n + 1) ==> allocated(s) && s.value == Written(before, pairs, n + 1)[s]
    {
      var (key, v) := pairs[n];
      SetAllStep(before, entries, pairs, n);
      ghost var w := Written(before, pairs, n);
      if IsSignalEntry(key) {
        ghost var s := entries[key].signal;
        assert before[key] == entries[key];
        var _, _ := Set(key, v);
        assert Written(before, pairs, n + 1) == w[s := v];
      } else {
        var _, _ := Set(key, v);
        assert Written(before, pairs, n + 1) == w;
      }
    }

    /** `get()`: an object with exactly the stored keys, each mapped to `Get(key)`. */
    method GetAll() returns (result: map<string, Value>)
      ensures result.Keys == entries.Keys
      ensures forall k :: k in result ==> result[k] == Get(k)
    {
      result := map[];
      var todo := entries.Keys;
      while todo != {}
        invariant todo <= entries.Keys
        invariant result.Keys == entries.Keys - todo
        invariant forall k :: k in result ==> result[k] == Get(k)
        decreases todo
      {
        var k :| k in todo;
        result := result[k := Get(k)];
        todo := todo - {k};
      }
    }

    /**
     * `provide(key)`: the cell under `key`; when there is none, a new cell
     * set to the previous `_get(key)` replaces the entry.
     */
    method Provide(key: string) returns (c: Cell)
      requires Valid()
      modifies this`entries
      ensures Valid()
      ensures old(IsSignalEntry(key)) ==> c == old(entries[key].signal) && entries == old(entries)
      ensures !old(IsSignalEntry(key)) ==>
        fresh(c) && entries == old(entries)[key := Sig(c)] && c.value == old(Get(key))
    {
      if key in entries && entries[key].Sig? {
        c := entries[key].signal;
        return;
      }
      c := new Cell();
      var _ := c.Set(Get(key));
      entries := entries[key := Sig(c)];
    }
  }
}
