/**
 * The observable cell of lib/Signal.js.
 *
 * A `Signal` holds one value and an ordered list of listeners. Calling it
 * with no argument reads the value; calling it with an argument runs the
 * optional setter, compares the result with the old value using `===`, and
 * on a change stores it and calls every listener in order. The process-wide
 * statics of the `Signal` function object (`Signal.totalListeners`,
 * `Signal._plugins`, `Signal.use`) live in a `Registry` that the operations
 * touching them receive.
 *
 * Listeners are opaque function values; what a listener does when it is
 * called is not modelled, and every listener, setter and plugin is taken to
 * return normally. Every call the library makes into user code is
 * reported instead, in order, as a `Call` in a returned trace.
 */
module Signals {
  import opened Values

  /** One call the library makes into user code, in the order it makes them. */
  datatype Call =
    | SetterCall(argument: Value)
    | ListenerCall(listener: Value, newValue: Value, oldValue: Value, target: Signal)
    | PluginCall(plugin: Value, signalObject: Registry, config: Value)

  // ---------------------------------------------------------------------
  // Sum of the listener counts the registry accounts for
  // ---------------------------------------------------------------------

  ghost function Sum(m: map<Signal, nat>): nat
    decreases |m|
  {
    if m == map[] then 0
    else
      var k :| k in m;
      m[k] + Sum(m - {k})
  }

  /** The sum does not depend on which key `Sum` happens to pick first. */
  lemma {:induction false} SumRemove(m: map<Signal, nat>, k: Signal)
    requires k in m
    ensures Sum(m) == m[k] + Sum(m - {k})
    decreases |m|
  {
    var j :| j in m && Sum(m) == m[j] + Sum(m - {j});
    if j != k {
      var mj, mk := m - {j}, m - {k};
      assert mj.Keys == m.Keys - {j};
      SumRemove(mj, k);
      SumRemove(mk, j);
      assert mj - {k} == mk - {j};
    }
  }

  /** Replacing one signal's contribution changes the sum by the difference. */
  lemma SumUpdate(m: map<Signal, nat>, k: Signal, v: nat)
    ensures Sum(m[k := v]) == Sum(m) - (if k in m then m[k] else 0) + v
  {
    var m' := m[k := v];
    SumRemove(m', k);
    assert m' - {k} == m - {k};
    if k in m {
      SumRemove(m, k);
    } else {
      assert m - {k} == m;
    }
  }

  // ---------------------------------------------------------------------
  // Listener registration
  // ---------------------------------------------------------------------

  /**
   * The position of the first argument `notify` rejects: the first one whose
   * `typeof` is not "function". `None` when every argument is a function.
   */
  function FirstNonFunction(args: seq<Value>): (r: Option<nat>)
    ensures r.None? <==> forall j :: 0 <= j < |args| ==> IsFunction(args[j])
    ensures r.Some? ==> r.value < |args| && !IsFunction(args[r.value])
    ensures r.Some? ==> forall j :: 0 <= j < r.value ==> IsFunction(args[j])
  {
    if args == [] then None
    else if !IsFunction(args[0]) then Some(0)
    else match FirstNonFunction(args[1..])
      case None => None
      case Some(i) => Some(i + 1)
  }

  /** The listeners `unnotify(args)` keeps: those not `===` to any argument, in their order. */
  function Without(ls: seq<Value>, args: seq<Value>): (kept: seq<Value>)
  {
    if ls == [] then []
    else
      var last := ls[|ls| - 1];
      Without(ls[..|ls| - 1], args) + (if last in args then [] else [last])
  }

  /**
   * Every occurrence of an argument is removed, and every other listener
   * keeps all of its registrations.
   */
  lemma {:induction false} WithoutOccurrences(ls: seq<Value>, args: seq<Value>, x: Value)
    ensures multiset(Without(ls, args))[x] == if x in args then 0 else multiset(ls)[x]
  {
    if ls != [] {
      var init, last := ls[..|ls| - 1], ls[|ls| - 1];
      WithoutOccurrences(init, args, x);
      assert ls == init + [last];
      assert multiset(ls) == multiset(init) + multiset{last};
      assert multiset(Without(ls, args)) == multiset(Without(init, args)) + multiset(if last in args then [] else [last]);
    }
  }

  /** Filtering distributes over concatenation: the survivors keep their relative order. */
  lemma {:induction false} WithoutConcat(xs: seq<Value>, ys: seq<Value>, args: seq<Value>)
    ensures Without(xs + ys, args) == Without(xs, args) + Without(ys, args)
  {
    if ys != [] {
      var init, last := ys[..|ys| - 1], ys[|ys| - 1];
      assert (xs + ys)[..|xs + ys| - 1] == xs + init;
      WithoutConcat(xs, init, args);
    } else {
      assert xs + ys == xs;
    }
  }

  /** Unnotifying listeners that are not registered changes nothing. */
  lemma {:induction false} WithoutUnregistered(ls: seq<Value>, args: seq<Value>)
    requires forall i :: 0 <= i < |ls| ==> ls[i] !in args
    ensures Without(ls, args) == ls
  {
    if ls != [] {
      WithoutUnregistered(ls[..|ls| - 1], args);
    }
  }

  /** Unnotifying every argument leaves none of them. */
  lemma {:induction false} WithoutAll(ls: seq<Value>)
    ensures Without(ls, ls) == []
  {
    if ls != [] {
      var init := ls[..|ls| - 1];
      WithoutAll(init);
      WithoutMore(init, init, ls);
    }
  }

  /** If filtering by some listeners empties a list, filtering by any superset of them empties it too. */
  lemma {:induction false} WithoutMore(ls: seq<Value>, small: seq<Value>, big: seq<Value>)
    requires forall x :: x in small ==> x in big
    requires Without(ls, small) == []
    ensures Without(ls, big) == []
  {
    if ls != [] {
      var init := ls[..|ls| - 1];
      WithoutMore(init, small, big);
    }
  }

  /**
   * `unnotify(l1..ln)` undoes `notify(l1..ln)` for listeners that were not
   * registered before.
   */
  lemma UnnotifyUndoesNotify(ls: seq<Value>, added: seq<Value>)
    requires forall i :: 0 <= i < |ls| ==> ls[i] !in added
    ensures Without(ls + added, added) == ls
  {
    WithoutConcat(ls, added, added);
    WithoutUnregistered(ls, added);
    WithoutAll(added);
  }

  /** A second `unnotify` with the same arguments changes nothing. */
  lemma UnnotifyIdempotent(ls: seq<Value>, args: seq<Value>)
    ensures Without(Without(ls, args), args) == Without(ls, args)
  {
    var w := Without(ls, args);
    forall i | 0 <= i < |w| ensures w[i] !in args {
      assert w[i] in multiset(w);
      WithoutOccurrences(ls, args, w[i]);
    }
    WithoutUnregistered(w, args);
  }

  /** The survivors of `unnotify` are registrations it already had, so they are still functions. */
  lemma WithoutKeepsFunctions(ls: seq<Value>, args: seq<Value>)
    requires forall i :: 0 <= i < |ls| ==> IsFunction(ls[i])
    ensures forall i :: 0 <= i < |Without(ls, args)| ==> IsFunction(Without(ls, args)[i])
  {
    var w := Without(ls, args);
    forall i | 0 <= i < |w| ensures IsFunction(w[i]) {
      assert w[i] in multiset(w);
      WithoutOccurrences(ls, args, w[i]);
      assert w[i] in multiset(ls);
    }
  }

  /** The loop of `unnotify` that collects the registrations to keep into `remaining`. */
  method Remaining(ls: seq<Value>, args: seq<Value>) returns (remaining: seq<Value>)
    ensures remaining == Without(ls, args)
  {
    remaining := [];
    var i := 0;
    while i < |ls|
      invariant 0 <= i <= |ls|
      invariant remaining == Without(ls[..i], args)
    {
      assert ls[..i + 1][..i] == ls[..i];
      if ls[i] !in args {
        remaining := remaining + [ls[i]];
      }
      i := i + 1;
    }
    assert ls[..i] == ls;
  }

  // ---------------------------------------------------------------------
  // Writing and notifying
  // ---------------------------------------------------------------------

  /** The value a write compares and stores: the setter's result when there is a setter. */
  function Transformed(setter: Option<Value -> Value>, arg: Value): (stored: Value)
  {
    match setter
    case None => arg
    case Some(f) => f(arg)
  }

  /** The setter's invocation, if a setter is installed. */
  function SetterCalls(setter: Option<Value -> Value>, arg: Value): (calls: seq<Call>)
  {
    if setter.Some? then [SetterCall(arg)] else []
  }

  /** The calls the private `notify` loop makes, one per registration, front to back. */
  function Notifications(ls: seq<Value>, newValue: Value, oldValue: Value, target: Signal): (calls: seq<Call>)
    ensures |calls| == |ls|
  {
    if ls == [] then []
    else [ListenerCall(ls[0], newValue, oldValue, target)] + Notifications(ls[1..], newValue, oldValue, target)
  }

  /** The listeners of a list that may be missing (never created, or disposed). */
  function ListOrEmpty(listeners: Option<seq<Value>>): (ls: seq<Value>)
  {
    if listeners.Some? then listeners.value else []
  }

  /** Every call one write of `arg` to a signal in the given state makes into user code. */
  function WriteCalls(oldValue: Value, setter: Option<Value -> Value>, listeners: Option<seq<Value>>,
                      arg: Value, target: Signal): (calls: seq<Call>)
  {
    var newValue := Transformed(setter, arg);
    SetterCalls(setter, arg)
      + (if newValue != oldValue then Notifications(ListOrEmpty(listeners), newValue, oldValue, target) else [])
  }

  /** The k-th notification goes to the k-th registration, with the new and old value and the signal. */
  lemma {:induction false} NotificationsAt(ls: seq<Value>, newValue: Value, oldValue: Value, target: Signal, k: nat)
    requires k < |ls|
    ensures |Notifications(ls, newValue, oldValue, target)| == |ls|
    ensures Notifications(ls, newValue, oldValue, target)[k] == ListenerCall(ls[k], newValue, oldValue, target)
  {
    if k > 0 {
      NotificationsAt(ls[1..], newValue, oldValue, target, k - 1);
    } else if |ls| > 1 {
      NotificationsAt(ls[1..], newValue, oldValue, target, 0);
    }
  }

  lemma {:induction false} NotificationsSnoc(ls: seq<Value>, x: Value, newValue: Value, oldValue: Value, target: Signal)
    ensures Notifications(ls + [x], newValue, oldValue, target)
         == Notifications(ls, newValue, oldValue, target) + [ListenerCall(x, newValue, oldValue, target)]
  {
    if ls != [] {
      assert (ls + [x])[1..] == ls[1..] + [x];
      NotificationsSnoc(ls[1..], x, newValue, oldValue, target);
    }
  }

  /**
   * The private `notify(listeners, newValue, oldValue, target)`: calls each
   * listener of the list in index order; does nothing when there is no list.
   */
  method NotifyListeners(listeners: Option<seq<Value>>, newValue: Value, oldValue: Value, target: Signal)
    returns (calls: seq<Call>)
    ensures calls == Notifications(ListOrEmpty(listeners), newValue, oldValue, target)
  {
    calls := [];
    if listeners.None? {
      return;
    }
    var ls := listeners.value;
    var i := 0;
    while i < |ls|
      invariant 0 <= i <= |ls|
      invariant calls == Notifications(ls[..i], newValue, oldValue, target)
    {
      NotificationsSnoc(ls[..i], ls[i], newValue, oldValue, target);
      assert ls[..i + 1] == ls[..i] + [ls[i]];
      calls := calls + [ListenerCall(ls[i], newValue, oldValue, target)];
      i := i + 1;
    }
    assert ls[..i] == ls;
  }

  /**
   * The setter runs exactly once per write when it is installed, first,
   * whether or not the value then changes; no other call is a setter call.
   */
  lemma SetterRunsOnce(oldValue: Value, setter: Option<Value -> Value>, listeners: Option<seq<Value>>,
                       arg: Value, target: Signal)
    ensures var calls := WriteCalls(oldValue, setter, listeners, arg, target);
      && (setter.Some? ==> |calls| > 0 && calls[0] == SetterCall(arg))
      && forall i :: 0 <= i < |calls| && calls[i].SetterCall? ==> i == 0 && setter.Some?
  {
    var calls := WriteCalls(oldValue, setter, listeners, arg, target);
    var pre := SetterCalls(setter, arg);
    var newValue := Transformed(setter, arg);
    var ls := ListOrEmpty(listeners);
    forall i | 0 <= i < |calls| && calls[i].SetterCall? ensures i == 0 && setter.Some? {
      if newValue != oldValue && i >= |pre| {
        NotificationsAt(ls, newValue, oldValue, target, i - |pre|);
      }
    }
  }

  /**
   * The change gate: a write calls some listener if and only if the
   * setter's result is not `===` the old value and a listener is registered.
   */
  lemma WriteGate(oldValue: Value, setter: Option<Value -> Value>, listeners: Option<seq<Value>>,
                  arg: Value, target: Signal)
    ensures (exists i :: 0 <= i < |WriteCalls(oldValue, setter, listeners, arg, target)|
                         && WriteCalls(oldValue, setter, listeners, arg, target)[i].ListenerCall?)
        <==> Transformed(setter, arg) != oldValue && |ListOrEmpty(listeners)| > 0
  {
    var calls := WriteCalls(oldValue, setter, listeners, arg, target);
    var pre := SetterCalls(setter, arg);
    var newValue := Transformed(setter, arg);
    var ls := ListOrEmpty(listeners);
    if newValue != oldValue && |ls| > 0 {
      NotificationsAt(ls, newValue, oldValue, target, 0);
      assert calls[|pre|].ListenerCall?;
    }
  }

  /**
   * On a change, each registration is called exactly once, in array order,
   * with `(newValue, oldValue, signal)`, right after the setter call.
   */
  lemma WriteNotifiesInOrder(oldValue: Value, setter: Option<Value -> Value>, listeners: Option<seq<Value>>,
                             arg: Value, target: Signal)
    requires Transformed(setter, arg) != oldValue
    ensures var calls := WriteCalls(oldValue, setter, listeners, arg, target);
            var pre := |SetterCalls(setter, arg)|;
            var ls := ListOrEmpty(listeners);
      && |calls| == pre + |ls|
      && forall k :: 0 <= k < |ls| ==>
           calls[pre + k] == ListenerCall(ls[k], Transformed(setter, arg), oldValue, target)
  {
    var ls := ListOrEmpty(listeners);
    var newValue := Transformed(setter, arg);
    if ls == [] {
      assert Notifications(ls, newValue, oldValue, target) == [];
    }
    forall k | 0 <= k < |ls|
      ensures |Notifications(ls, newValue, oldValue, target)| == |ls|
      ensures Notifications(ls, newValue, oldValue, target)[k] == ListenerCall(ls[k], newValue, oldValue, target)
    {
      NotificationsAt(ls, newValue, oldValue, target, k);
    }
  }

  /**
   * Writing the same argument twice: the second write stores the same value
   * and calls no listener (the setter still runs). This holds for object
   * references too, since the gate is `!==` on every kind of value.
   */
  lemma RepeatedWriteIsSilent(setter: Option<Value -> Value>, listeners: Option<seq<Value>>,
                              arg: Value, target: Signal)
    ensures var calls := WriteCalls(Transformed(setter, arg), setter, listeners, arg, target);
      forall i :: 0 <= i < |calls| ==> !calls[i].ListenerCall?
  {
    WriteGate(Transformed(setter, arg), setter, listeners, arg, target);
  }

  /**
   * The loop at the head of `notify` that rejects the first argument whose
   * `typeof` is not "function".
   */
  method CheckListeners(args: seq<Value>) returns (bad: Option<nat>)
    ensures bad == FirstNonFunction(args)
  {
    var i := 0;
    while i < |args|
      invariant 0 <= i <= |args|
      invariant forall j :: 0 <= j < i ==> IsFunction(args[j])
    {
      if TypeOf(args[i]) != "function" {
        return Some(i);
      }
      i := i + 1;
    }
    return None;
  }

  // ---------------------------------------------------------------------
  // Signal.use
  // ---------------------------------------------------------------------

  /**
   * What one `Signal.use(plugin, config)` call does to the applied-plugin
   * list; `target` is the `Signal` function object the plugin receives.
   */
  datatype UseEffect = UseEffect(plugins: seq<Value>, calls: seq<Call>, thrown: Option<Error>)

  function UseStep(plugins: seq<Value>, plugin: Value, config: Value, target: Registry): (effect: UseEffect)
  {
    if plugin in plugins then UseEffect(plugins, [], None)
    else if !IsFunction(plugin) then UseEffect(plugins, [], Some(PluginNotCallable(plugin)))
    else UseEffect(plugins + [plugin], [PluginCall(plugin, target, config)], None)
  }

  /** Consecutive `use` calls, each given as (plugin, config); a throwing call changes nothing. */
  function UseAll(plugins: seq<Value>, uses: seq<(Value, Value)>, target: Registry): (result: (seq<Value>, seq<Call>))
  {
    if uses == [] then (plugins, [])
    else
      var (ps, calls) := UseAll(plugins, uses[..|uses| - 1], target);
      var step := UseStep(ps, uses[|uses| - 1].0, uses[|uses| - 1].1, target);
      (step.plugins, calls + step.calls)
  }

  /** How many times `calls` invokes plugin `p`. */
  function PluginCalls(calls: seq<Call>, p: Value): (n: nat)
  {
    if calls == [] then 0
    else PluginCalls(calls[..|calls| - 1], p)
         + (if calls[|calls| - 1].PluginCall? && calls[|calls| - 1].plugin == p then 1 else 0)
  }

  lemma {:induction false} PluginCallsConcat(xs: seq<Call>, ys: seq<Call>, p: Value)
    ensures PluginCalls(xs + ys, p) == PluginCalls(xs, p) + PluginCalls(ys, p)
  {
    if ys != [] {
      assert (xs + ys)[..|xs + ys| - 1] == xs + ys[..|ys| - 1];
      PluginCallsConcat(xs, ys[..|ys| - 1], p);
    } else {
      assert xs + ys == xs;
    }
  }

  /**
   * Over any series of `use` calls, a plugin is invoked exactly once if it
   * ends up applied without having been applied at the start, and never
   * otherwise; the applied list only grows.
   */
  lemma {:induction false} PluginAppliedAtMostOnce(plugins: seq<Value>, uses: seq<(Value, Value)>, p: Value, target: Registry)
    ensures forall x :: x in plugins ==> x in UseAll(plugins, uses, target).0
    ensures PluginCalls(UseAll(plugins, uses, target).1, p)
         == if p in UseAll(plugins, uses, target).0 && p !in plugins then 1 else 0
  {
    if uses != [] {
      var init := uses[..|uses| - 1];
      PluginAppliedAtMostOnce(plugins, init, p, target);
      var (ps, calls) := UseAll(plugins, init, target);
      var step := UseStep(ps, uses[|uses| - 1].0, uses[|uses| - 1].1, target);
      PluginCallsConcat(calls, step.calls, p);
      if step.calls != [] {
        assert PluginCalls(step.calls, p) == PluginCalls([], p) + (if step.calls[0].plugin == p then 1 else 0);
      }
    }
  }

  // ---------------------------------------------------------------------
  // The statics of the Signal function object
  // ---------------------------------------------------------------------

  class Registry {
    /** `Signal.totalListeners` */
    var totalListeners: int
    /** `Signal._plugins`: the plugins `use` has applied, in order */
    var plugins: seq<Value>
    /** Each signal created so far, with the number of listeners it accounts for. */
    ghost var contributions: map<Signal, nat>

    /**
     * The leak-tracking invariant: the counter is the sum of the listener
     * counts of all signals, and every signal's list holds only functions.
     */
    ghost predicate Valid()
      reads this, contributions.Keys`listeners
    {
      && (forall s :: s in contributions ==> contributions[s] == s.ListenerCount())
      && (forall s :: s in contributions ==> s.ListenersAreFunctions())
      && totalListeners == Sum(contributions)
    }

    constructor ()
      ensures Valid()
      ensures totalListeners == 0 && plugins == [] && contributions == map[]
    {
      totalListeners := 0;
      plugins := [];
      contributions := map[];
    }

    /**
     * `Signal.use(plugin, config)`: applies a plugin not applied before and
     * records it; a repeat is a no-op. Calling a non-function throws before
     * it is recorded. Returns the `Signal` function object.
     */
    method Use(plugin: Value, config: Value) returns (r: Completion<Registry>, calls: seq<Call>)
      requires Valid()
      modifies this`plugins
      ensures Valid()
      ensures plugins == UseStep(old(plugins), plugin, config, this).plugins
      ensures calls == UseStep(old(plugins), plugin, config, this).calls
      ensures r == match UseStep(old(plugins), plugin, config, this).thrown
                   case None => Return(this)
                   case Some(e) => Throw(e)
    {
      calls := [];
      r := Return(this);
      if plugin !in plugins {
        if !IsFunction(plugin) {
          r := Throw(PluginNotCallable(plugin));
          return;
        }
        calls := [PluginCall(plugin, this, config)];
        plugins := plugins + [plugin];
      }
    }
  }

  // ---------------------------------------------------------------------
  // The signal
  // ---------------------------------------------------------------------

  class Signal {
    /** `_value` */
    var value: Value
    /** `_listeners`; `None` before the first `notify` and after `dispose` */
    var listeners: Option<seq<Value>>
    /** `setter`; `None` for every value whose `typeof` is not "function" */
    var setter: Option<Value -> Value>

    function Registered(): seq<Value>
      reads this`listeners
    {
      ListOrEmpty(listeners)
    }

    function ListenerCount(): nat
      reads this`listeners
    {
      |Registered()|
    }

    predicate ListenersAreFunctions()
      reads this`listeners
    {
      forall i :: 0 <= i < |Registered()| ==> IsFunction(Registered()[i])
    }

    /** `Signal(initial)`: a new signal holding `initial`, with no listeners and no setter. */
    constructor (reg: Registry, initial: Value)
      requires reg.Valid()
      modifies reg`contributions
      ensures value == initial && listeners == None && setter == None
      ensures reg.contributions == old(reg.contributions)[this := 0]
      ensures reg.Valid()
    {
      value := initial;
      listeners := None;
      setter := None;
      new;
      SumUpdate(reg.contributions, this, 0);
      reg.contributions := reg.contributions[this := 0];
    }

    /** Calling the signal with no argument: returns the value, changes nothing. */
    method Read() returns (r: Value)
      ensures r == value
    {
      r := value;
    }

    /**
     * Calling the signal with an argument. The setter (if any) runs first;
     * its result is stored, and when it is not `===` the old value every
     * listener is called. Listener effects beyond the call are not modelled.
     */
    method Write(arg: Value) returns (calls: seq<Call>)
      modifies this`value
      ensures value == Transformed(setter, arg)
      ensures calls == WriteCalls(old(value), setter, listeners, arg, this)
    {
      var oldValue := value;
      var newValue := arg;
      calls := [];
      if setter.Some? {
        calls := [SetterCall(arg)];
        newValue := setter.value(arg);
      }
      if newValue != oldValue {
        value := newValue;
        var notified := NotifyListeners(listeners, newValue, oldValue, this);
        calls := calls + notified;
      }
    }

    /**
     * The signal function itself: without arguments a read, otherwise a
     * write of the first argument that returns `undefined`.
     */
    method Invoke(args: seq<Value>) returns (r: Value, calls: seq<Call>)
      modifies this`value
      ensures |args| == 0 ==> r == old(value) && value == old(value) && calls == []
      ensures |args| > 0 ==> r == Undefined && value == Transformed(setter, args[0])
      ensures |args| > 0 ==> calls == WriteCalls(old(value), setter, listeners, args[0], this)
    {
      if |args| == 0 {
        r := Read();
        calls := [];
      } else {
        calls := Write(args[0]);
        r := Undefined;
      }
    }

    /**
     * `notify(l1, ..., ln)`: all or nothing. If some argument is not a
     * function it throws, having only created the empty list; otherwise it
     * appends all arguments in order and raises the counter by n. Returns
     * the signal.
     */
    method Notify(reg: Registry, args: seq<Value>) returns (r: Completion<Signal>)
      requires reg.Valid() && this in reg.contributions
      modifies this`listeners, reg`totalListeners, reg`contributions
      ensures reg.Valid()
      ensures reg.contributions == old(reg.contributions)[this := ListenerCount()]
      ensures FirstNonFunction(args).None? ==>
        && r == Return(this)
        && listeners == Some(old(Registered()) + args)
        && reg.totalListeners == old(reg.totalListeners) + |args|
      ensures FirstNonFunction(args).Some? ==>
        && r == Throw(ListenerNotFunction(TypeOf(args[FirstNonFunction(args).value])))
        && listeners == Some(old(Registered()))
        && reg.totalListeners == old(reg.totalListeners)
    {
      if listeners.None? {
        listeners := Some([]);
      }
      var bad := CheckListeners(args);
      if bad.Some? {
        r := Throw(ListenerNotFunction(TypeOf(args[bad.value])));
      } else {
        reg.totalListeners := reg.totalListeners + |args|;
        listeners := Some(listeners.value + args);
        reg.contributions := reg.contributions[this := |listeners.value|];
        r := Return(this);
      }
      SumUpdate(old(reg.contributions), this, ListenerCount());
      forall s | s in reg.contributions
        ensures reg.contributions[s] == s.ListenerCount() && s.ListenersAreFunctions()
      {
        if s != this {
          assert s.listeners == old(s.listeners);
          assert old(reg.contributions[s] == s.ListenerCount() && s.ListenersAreFunctions());
        }
      }
    }

    /**
     * `unnotify(l1, ..., ln)`: removes every registration `===` to an
     * argument, keeps the others in order and lowers the counter by the
     * number removed. Without a list it does nothing. Returns the signal.
     */
    method Unnotify(reg: Registry, args: seq<Value>) returns (r: Signal)
      requires reg.Valid() && this in reg.contributions
      modifies this`listeners, reg`totalListeners, reg`contributions
      ensures reg.Valid()
      ensures r == this
      ensures reg.contributions == old(reg.contributions)[this := ListenerCount()]
      ensures listeners == match old(listeners)
                           case None => None
                           case Some(ls) => Some(Without(ls, args))
      ensures reg.totalListeners == old(reg.totalListeners) - (old(ListenerCount()) - ListenerCount())
    {
      r := this;
      if listeners.None? {
        return;
      }
      var ls := listeners.value;
      var remaining := Remaining(ls, args);
      WithoutKeepsFunctions(ls, args);
      listeners := Some(remaining);
      reg.totalListeners := reg.totalListeners - (|ls| - |remaining|);
      reg.contributions := reg.contributions[this := |remaining|];
      SumUpdate(old(reg.contributions), this, ListenerCount());
      forall s | s in reg.contributions
        ensures reg.contributions[s] == s.ListenerCount() && s.ListenersAreFunctions()
      {
        if s != this {
          assert s.listeners == old(s.listeners);
          assert old(reg.contributions[s] == s.ListenerCount() && s.ListenersAreFunctions());
        }
      }
    }

    /**
     * `dispose()`: gives the listener count back to the counter, sets the
     * value to `null` and drops the list.
     */
    method Dispose(reg: Registry)
      requires reg.Valid() && this in reg.contributions
      modifies this`value, this`listeners, reg`totalListeners, reg`contributions
      ensures reg.Valid()
      ensures value == Null && listeners == None
      ensures reg.totalListeners == old(reg.totalListeners) - old(ListenerCount())
      ensures reg.contributions == old(reg.contributions)[this := 0]
    {
      if listeners.Some? {
        reg.totalListeners := reg.totalListeners - |listeners.value|;
      }
      value := Null;
      listeners := None;
      reg.contributions := reg.contributions[this := 0];
      SumUpdate(old(reg.contributions), this, ListenerCount());
      forall s | s in reg.contributions
        ensures reg.contributions[s] == s.ListenerCount() && s.ListenersAreFunctions()
      {
        if s != this {
          assert s.listeners == old(s.listeners);
          assert old(reg.contributions[s] == s.ListenerCount() && s.ListenersAreFunctions());
        }
      }
    }
  }
}
