/**
 * Concrete call sequences written against the model, some after the
 * repository's tests (adapted to the call API), with their outcomes proved.
 */
module Scenarios {
  import opened Values
  import opened Signals
  import opened Stores
  import opened MultiSignals
  import opened SuperSignals

  /** A fresh signal reads `undefined`, and each write is read back. */
  method ReadBack() returns (seen: seq<Value>)
    ensures seen == [Undefined, Str("Ahoy!"), Str("Arrr!"), Bool(true), Obj(1)]
  {
    var reg := new Registry();
    var s := new Signal(reg, Undefined);
    var r0 := s.Read();
    var _ := s.Write(Str("Ahoy!"));
    var r1 := s.Read();
    var _ := s.Write(Str("Arrr!"));
    var r2 := s.Read();
    var _ := s.Write(Bool(true));
    var r3 := s.Read();
    var _ := s.Write(Obj(1));
    var r4 := s.Read();
    seen := [r0, r1, r2, r3, r4];
  }

  /**
   * A registered listener is called once with the new value, the previous
   * one and the signal; writing the same value again calls nobody.
   */
  method ListenerSeesChange() returns (s: Signal, changed: seq<Call>, repeated: seq<Call>)
    ensures changed == [ListenerCall(Fn(1), Str("What up?"), Str("Ahoy!"), s)]
    ensures repeated == []
  {
    var reg := new Registry();
    s := new Signal(reg, Str("Ahoy!"));
    assert FirstNonFunction([Fn(1)]) == None;
    var _ := s.Notify(reg, [Fn(1)]);
    assert s.listeners.value == [Fn(1)];
    changed := s.Write(Str("What up?"));
    assert Notifications([Fn(1)], Str("What up?"), Str("Ahoy!"), s)
        == [ListenerCall(Fn(1), Str("What up?"), Str("Ahoy!"), s)];
    repeated := s.Write(Str("What up?"));
  }

  /**
   * `Signal.totalListeners` after a new signal, `notify` with two listeners
   * and a rejected `notify`, which adds nothing.
   */
  method NotifyAccounting() returns (totals: seq<int>, rejected: Completion<Signal>)
    ensures totals == [0, 2, 2]
    ensures rejected == Throw(ListenerNotFunction("number"))
  {
    var reg := new Registry();
    var s := new Signal(reg, Undefined);
    var t0 := reg.totalListeners;
    assert FirstNonFunction([Fn(1), Fn(2)]) == None;
    var _ := s.Notify(reg, [Fn(1), Fn(2)]);
    var t1 := reg.totalListeners;
    assert FirstNonFunction([Fn(3), Num(3)]) == Some(1);
    rejected := s.Notify(reg, [Fn(3), Num(3)]);
    var t2 := reg.totalListeners;
    totals := [t0, t1, t2];
  }

  /**
   * `unnotify` removes every registration of a listener, keeps the others
   * in order, and lowers the counter by the number removed.
   */
  method UnnotifyAccounting() returns (before: int, after: int, kept: seq<Value>)
    ensures before == 3 && after == 1 && kept == [Fn(2)]
  {
    var reg := new Registry();
    var s := new Signal(reg, Undefined);
    assert FirstNonFunction([Fn(1), Fn(2), Fn(1)]) == None;
    var _ := s.Notify(reg, [Fn(1), Fn(2), Fn(1)]);
    assert s.listeners.value == [Fn(1), Fn(2), Fn(1)];
    before := reg.totalListeners;
    var _ := s.Unnotify(reg, [Fn(1)]);
    assert Without([Fn(1), Fn(2), Fn(1)], [Fn(1)]) == [Fn(2)] by {
      var ls := [Fn(1), Fn(2), Fn(1)];
      assert Without(ls[..1], [Fn(1)]) == [];
      assert ls[..2][..1] == ls[..1];
      assert Without(ls[..2], [Fn(1)]) == [Fn(2)];
      assert ls[..3] == ls;
    }
    after := reg.totalListeners;
    kept := s.listeners.value;
  }

  /**
   * `dispose` gives back the listener count once; a second `dispose` gives
   * back nothing, and a write after `dispose` calls no listener.
   */
  method DisposeTwice() returns (totals: seq<int>, value: Value, afterDispose: seq<Call>)
    ensures totals == [3, 0, 0] && value == Null && afterDispose == []
  {
    var reg := new Registry();
    var s := new Signal(reg, Str("Ahoy!"));
    assert FirstNonFunction([Fn(1), Fn(2), Fn(1)]) == None;
    var _ := s.Notify(reg, [Fn(1), Fn(2), Fn(1)]);
    var t0 := reg.totalListeners;
    s.Dispose(reg);
    var t1 := reg.totalListeners;
    s.Dispose(reg);
    var t2 := reg.totalListeners;
    totals := [t0, t1, t2];
    value := s.value;
    afterDispose := s.Write(Str("Arr!"));
  }

  /** A plugin is called on its first `use` only; a non-function plugin throws. */
  method UsePluginTwice() returns (reg: Registry, first: seq<Call>, second: seq<Call>, bad: Completion<Registry>)
    ensures first == [PluginCall(Fn(7), reg, Null)] && second == []
    ensures bad == Throw(PluginNotCallable(Num(7)))
  {
    reg := new Registry();
    var _, c1 := reg.Use(Fn(7), Null);
    var _, c2 := reg.Use(Fn(7), Obj(0));
    var b, _ := reg.Use(Num(7), Null);
    first, second, bad := c1, c2, b;
  }

  /**
   * MultiSignal: `get` of an unset key is `undefined`, and `get()` after
   * `set(obj)` gives the object back.
   */
  method MultiSignalSetGet() returns (unset: Value, all: map<string, Value>)
    ensures unset == Undefined
    ensures all == map["greeting" := Str("Ahoy!"), "age" := Num(34)]
  {
    var ms := new MultiSignal();
    unset := ms.Get("name");
    var pairs := [("greeting", Str("Ahoy!")), ("age", Num(34))];
    assert KeysOf(pairs) == {"greeting", "age"} by {
      assert pairs[0].0 == "greeting" && pairs[1].0 == "age";
    }
    var _ := ms.SetAll(pairs);
    assert ms.entries["greeting"] == AfterSet(map[], pairs[0].0, pairs[0].1);
    assert ms.entries["age"] == AfterSet(map[], pairs[1].0, pairs[1].1);
    all := ms.GetAll();
  }

  /**
   * MultiSignal: `provide` twice gives the same signal, seeded with the
   * stored value, and a later `set` writes into it.
   */
  method MultiSignalProvide() returns (same: bool, seeded: Value, routed: Value)
    ensures same && seeded == Str("Ahoy!") && routed == Str("Arr!")
  {
    var reg := new Registry();
    var ms := new MultiSignal();
    var _, _ := ms.Set("greeting", Str("Ahoy!"));
    var p1 := ms.Provide(reg, "greeting");
    var p2 := ms.Provide(reg, "greeting");
    same := p1 == p2;
    seeded := p1.value;
    var _, _ := ms.Set("greeting", Str("Arr!"));
    routed := p1.value;
  }

  /**
   * `_get` as written on a provided key hands out the signal object, where
   * the value written through it is what `get` is meant to return.
   */
  method MultiSignalGetAfterProvide() returns (asWritten: Got, intended: Value)
    ensures asWritten.SignalItself?
    ensures intended == Str("Ahoy!")
  {
    var reg := new Registry();
    var ms := new MultiSignal();
    var _ := ms.Provide(reg, "greeting");
    var _, _ := ms.Set("greeting", Str("Ahoy!"));
    asWritten := ms.GetAsWritten("greeting");
    intended := ms.Get("greeting");
  }

  /**
   * SuperSignal: a provided cell starts at `undefined` for an unset key, is
   * the same on every `provide`, and observes a later `set` as a change from
   * `undefined` to the new value.
   */
  method SuperSignalProvide() returns (initial: Value, same: bool, change: Option<Change>)
    ensures initial == Undefined && same
    ensures change == Some(Change(Undefined, Str("Ahoy!")))
  {
    var ss := new SuperSignal();
    var c1 := ss.Provide("greeting");
    initial := c1.value;
    var c2 := ss.Provide("greeting");
    same := c1 == c2;
    var _, ch := ss.Set("greeting", Str("Ahoy!"));
    change := ch;
  }
}
