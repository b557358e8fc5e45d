/**
 * The `Flux` object: named stores, action creators, action listeners, the
 * listener trie that components subscribe to, and the batch of store paths
 * waiting to be announced to subscribers.
 */
module FluxCore {
  import opened JsValues
  import opened ListenerTrie
  import opened PatchPaths
  import Utils

  /** What `React.addons.update(value, how)` gives back: the new value, or the error it throws. */
  datatype Applied = Applied(value: Value) | Rejected(error: string)

  /**
   * The code the library calls but does not own. `patch` is React's
   * immutability helper; `call(f, args)` is what the user function `f`
   * returns; `handle(f, val, state)` is the list of patches the store
   * handler `f` passes, in order and before it returns, to the updater it
   * is given when called with action value `val` and store value `state`.
   */
  datatype World = World(
    patch: (Value, Value) -> Applied,
    call: (nat, seq<Value>) -> Value,
    handle: (nat, Value, Value) -> seq<Value>)

  /**
   * An entry of an action listener list: the function `addStore` registers
   * (`handleAction` bound to a store name and that store's handler), or a
   * callback registered directly with `onAction`.
   */
  datatype ActionListener = StoreHandler(store: string, handler: Value) | Listener(cb: Callback)

  /** The first argument of `sendAction`: an action name, or an array holding it and bound arguments. */
  datatype ActionRef = Named(name: Value) | Listed(items: seq<Value>)

  /** What an action name resolves to: the group, the event and the action creator, with the full argument list. */
  datatype Resolved = Resolved(group: string, event: string, creator: nat, args: seq<Value>)

  /** The part of a `Flux` object that actions and flushes change. */
  datatype Snapshot = Snapshot(stores: map<string, Value>, updating: Option<set<string>>, scheduled: nat, log: seq<Call>)

  /** The part that only registration changes. */
  datatype Wiring = Wiring(
    listentree: Trie,
    actionListeners: map<string, map<string, seq<ActionListener>>>,
    actions: map<string, Value>)

  type Registry = map<string, map<string, seq<ActionListener>>>

  // ---- action listeners ----

  /** The listener list of `group`.`event`; a missing group or event has none. */
  function ListenersOf(al: Registry, group: string, event: string): seq<ActionListener>
  {
    if group in al && event in al[group] then al[group][event] else []
  }

  /** The handler `addStore` finds at `listeners[group][event]`, own properties of objects only. */
  function HandlerAt(listeners: Value, group: string, event: string): Option<Value>
  {
    if listeners.Obj? && group in listeners.fields && listeners.fields[group].Obj? &&
       event in listeners.fields[group].fields
    then Some(listeners.fields[group].fields[event])
    else None
  }

  /** What `addStore(store, _, listeners)` appends to the list of `group`.`event`. */
  function HandlerFor(store: string, listeners: Value, group: string, event: string): seq<ActionListener>
  {
    match HandlerAt(listeners, group, event)
    case None => []
    case Some(h) => [StoreHandler(store, h)]
  }

  // ---- pending updates ----

  /** The keys waiting to be announced; none when no batch is open. */
  function Pending(updating: Option<set<string>>): set<string>
  {
    if updating.Some? then updating.value else {}
  }

  /** The keys `enqueueUpdates(updates)` adds. */
  function Keys(updates: seq<seq<string>>): set<string>
  {
    set p | p in updates :: JoinWith(p, SEP)
  }

  /** A batch is open only while a flush is scheduled to announce it. */
  predicate Armed(s: Snapshot)
  {
    s.updating.Some? ==> s.scheduled > 0
  }

  /** `enqueueUpdates`: opens a batch and schedules a flush when none is open, then adds the keys. */
  function Enqueued(s: Snapshot, keys: set<string>): Snapshot
  {
    s.(updating := Some(Pending(s.updating) + keys),
       scheduled := if s.updating.None? then s.scheduled + 1 else s.scheduled)
  }

  /** `update(store, how)`: patch one store and enqueue the paths the patch names. */
  ghost function Updated(w: World, s: Snapshot, store: string, how: Value): (Snapshot, Outcome)
  {
    match w.patch(Lookup(s.stores, store), how)
    case Rejected(e) => (s, Threw(e))
    case Applied(v) => (Enqueued(s.(stores := s.stores[store := v]), ChangedKeys(how, store)), Done)
  }

  /** The patches a handler passes to its updater, applied in order until one throws. */
  ghost function Handled(w: World, s: Snapshot, store: string, patches: seq<Value>): (Snapshot, Outcome)
    decreases |patches|
  {
    if patches == [] then (s, Done)
    else
      var (s1, o) := Updated(w, s, store, patches[0]);
      if o.Threw? then (s1, o) else Handled(w, s1, store, patches[1..])
  }

  /** `handleAction(store, handler, val)`: calling something that is not a function throws. */
  ghost function HandledAction(w: World, s: Snapshot, store: string, handler: Value, val: Value): (Snapshot, Outcome)
  {
    if !handler.Fn? then (s, Threw("TypeError"))
    else Handled(w, s, store, w.handle(handler.id, val, Lookup(s.stores, store)))
  }

  /** One action listener run with `val`. */
  ghost function Ran(w: World, s: Snapshot, l: ActionListener, val: Value): (Snapshot, Outcome)
  {
    match l
    case StoreHandler(store, h) => HandledAction(w, s, store, h, val)
    case Listener(cb) => (s.(log := s.log + [Call(cb, [val])]), Done)
  }

  /** `listeners.forEach(fn => fn(val))`: run in order; an exception stops the rest. */
  ghost function Dispatched(w: World, s: Snapshot, ls: seq<ActionListener>, val: Value): (Snapshot, Outcome)
    decreases |ls|
  {
    if ls == [] then (s, Done)
    else
      var (s1, o) := Ran(w, s, ls[0], val);
      if o.Threw? then (s1, o) else Dispatched(w, s1, ls[1..], val)
  }

  /** The reference reading of a handler's patches: folded over the store value, stopping at the first rejection. */
  function Folded(w: World, v: Value, patches: seq<Value>): Applied
    decreases |patches|
  {
    if patches == [] then Applied(v)
    else
      match w.patch(v, patches[0])
      case Rejected(e) => Rejected(e)
      case Applied(v') => Folded(w, v', patches[1..])
  }

  /** The calls the plain listeners in `ls` receive. */
  function ListenerCalls(ls: seq<ActionListener>, val: Value): seq<Call>
  {
    if ls == [] then []
    else (if ls[0].Listener? then [Call(ls[0].cb, [val])] else []) + ListenerCalls(ls[1..], val)
  }

  /**
   * A handler's patches reach its own store only: the store ends up holding
   * the patches folded over its value, or the handler throws the first
   * rejection, and every other store and the call log stay as they were.
   */
  lemma {:induction false} HandledFolds(w: World, s: Snapshot, store: string, patches: seq<Value>)
    ensures Handled(w, s, store, patches).1.Done? <==> Folded(w, Lookup(s.stores, store), patches).Applied?
    ensures Handled(w, s, store, patches).1.Done? && patches != [] ==>
      Handled(w, s, store, patches).0.stores == s.stores[store := Folded(w, Lookup(s.stores, store), patches).value]
    ensures Handled(w, s, store, patches).1.Threw? ==>
      Handled(w, s, store, patches).1.error == Folded(w, Lookup(s.stores, store), patches).error
    ensures forall other :: other != store ==>
      Lookup(Handled(w, s, store, patches).0.stores, other) == Lookup(s.stores, other)
    ensures Handled(w, s, store, patches).0.log == s.log
    decreases |patches|
  {
    if patches != [] {
      var (s1, o) := Updated(w, s, store, patches[0]);
      if o.Done? {
        HandledFolds(w, s1, store, patches[1..]);
        assert Lookup(s1.stores, store) == w.patch(Lookup(s.stores, store), patches[0]).value;
      }
    }
  }

  /**
   * However many updates a handler makes, at most one flush is scheduled,
   * none when a batch is already open; pending keys are only added, and an
   * open batch keeps its scheduled flush.
   */
  lemma {:induction false} HandledSchedulesOnce(w: World, s: Snapshot, store: string, patches: seq<Value>)
    ensures s.scheduled <= Handled(w, s, store, patches).0.scheduled <= s.scheduled + 1
    ensures s.updating.Some? ==> Handled(w, s, store, patches).0.scheduled == s.scheduled
    ensures Pending(s.updating) <= Pending(Handled(w, s, store, patches).0.updating)
    ensures s.updating.Some? ==> Handled(w, s, store, patches).0.updating.Some?
    ensures Handled(w, s, store, patches).0.scheduled > s.scheduled ==> Handled(w, s, store, patches).0.updating.Some?
    ensures Armed(s) ==> Armed(Handled(w, s, store, patches).0)
    decreases |patches|
  {
    if patches != [] {
      var (s1, o) := Updated(w, s, store, patches[0]);
      if o.Done? {
        HandledSchedulesOnce(w, s1, store, patches[1..]);
      }
    }
  }

  /**
   * The same for a whole action: running all listeners of an event
   * schedules at most one flush and keeps an open batch armed.
   */
  lemma {:induction false} DispatchedSchedulesOnce(w: World, s: Snapshot, ls: seq<ActionListener>, val: Value)
    ensures s.scheduled <= Dispatched(w, s, ls, val).0.scheduled <= s.scheduled + 1
    ensures s.updating.Some? ==> Dispatched(w, s, ls, val).0.scheduled == s.scheduled
    ensures Pending(s.updating) <= Pending(Dispatched(w, s, ls, val).0.updating)
    ensures s.updating.Some? ==> Dispatched(w, s, ls, val).0.updating.Some?
    ensures Dispatched(w, s, ls, val).0.scheduled > s.scheduled ==> Dispatched(w, s, ls, val).0.updating.Some?
    ensures Armed(s) ==> Armed(Dispatched(w, s, ls, val).0)
    decreases |ls|
  {
    if ls != [] {
      var (s1, o) := Ran(w, s, ls[0], val);
      if ls[0].StoreHandler? && ls[0].handler.Fn? {
        var l := ls[0];
        HandledSchedulesOnce(w, s, l.store, w.handle(l.handler.id, val, Lookup(s.stores, l.store)));
      }
      if o.Done? {
        DispatchedSchedulesOnce(w, s1, ls[1..], val);
        assert Dispatched(w, s, ls, val) == Dispatched(w, s1, ls[1..], val);
      }
    }
  }

  /**
   * When no listener throws, every plain listener of the event receives the
   * action's value exactly once, in registration order.
   */
  lemma {:induction false} DispatchedLog(w: World, s: Snapshot, ls: seq<ActionListener>, val: Value)
    ensures Dispatched(w, s, ls, val).1.Done? ==> Dispatched(w, s, ls, val).0.log == s.log + ListenerCalls(ls, val)
    decreases |ls|
  {
    if ls != [] {
      var (s1, o) := Ran(w, s, ls[0], val);
      if ls[0].StoreHandler? && ls[0].handler.Fn? {
        var l := ls[0];
        HandledFolds(w, s, l.store, w.handle(l.handler.id, val, Lookup(s.stores, l.store)));
      }
      if o.Done? {
        DispatchedLog(w, s1, ls[1..], val);
      }
    }
  }

  // ---- resolving an action name ----

  /** `res` looks like a promise: `res && res.then && res.catch`. */
  predicate Thenable(res: Value)
  {
    Truthy(res) && Truthy(Get(res, "then")) && Truthy(Get(res, "catch"))
  }

  /**
   * How `sendAction(action, ...args)` finds its action creator: an array
   * action supplies the name and leading arguments; the name splits on `.`
   * into group and event (a missing event is the key `"undefined"`); a
   * name that is not a string, a missing group or a creator that is not a
   * function throws a `TypeError` (None).
   */
  function Target(creators: map<string, Value>, action: ActionRef, args: seq<Value>): Option<Resolved>
  {
    var name := match action case Named(v) => v case Listed(items) => if |items| > 0 then items[0] else Undefined;
    var all := match action case Named(_) => args case Listed(items) => (if |items| > 0 then items[1..] else []) + args;
    if !name.Str? then None
    else
      var parts := SplitOn(name.s, '.');
      var event := if |parts| > 1 then parts[1] else "undefined";
      var group := Lookup(creators, parts[0]);
      if group.Undefined? || group.Null? || !Get(group, event).Fn? then None
      else Some(Resolved(parts[0], event, Get(group, event).id, all))
  }

  /** A dotted name `group.event` finds the creator registered under that group and event. */
  lemma TargetDotted(creators: map<string, Value>, group: string, event: string, args: seq<Value>)
    requires '.' !in group && '.' !in event
    ensures Target(creators, Named(Str(JoinWith([group, event], '.'))), args) ==
      if group in creators && creators[group].Obj? && event in creators[group].fields && creators[group].fields[event].Fn?
      then Some(Resolved(group, event, creators[group].fields[event].id, args))
      else None
  {
    SplitJoin([group, event], '.');
  }

  /** An array action `[name, ...bound]` calls the creator with the bound arguments first. */
  lemma TargetListed(creators: map<string, Value>, name: Value, bound: seq<Value>, args: seq<Value>)
    ensures Target(creators, Listed([name] + bound), args) == Target(creators, Named(name), bound + args)
  {
    assert ([name] + bound)[0] == name && ([name] + bound)[1..] == bound;
  }

  // ---- announcing a batch ----

  /** The subscribers reached from the pending keys in `batch`. */
  function ReachAll(t: Trie, batch: set<string>): set<Callback>
  {
    set u, c | u in batch && c in Reach(t, SplitOn(u, SEP)) :: c
  }

  /** Every call has one argument: the value at a node, on or below the path of some key, that holds the callee. */
  ghost predicate Reached(t: Trie, obj: Value, parts: seq<string>, calls: seq<Call>)
  {
    forall i :: 0 <= i < |calls| ==> |calls[i].args| == 1 && ReachWith(t, obj, parts, calls[i].cb, calls[i].args[0])
  }

  ghost predicate Delivered(t: Trie, obj: Value, batch: set<string>, c: Call)
  {
    |c.args| == 1 && exists u :: u in batch && ReachWith(t, obj, SplitOn(u, SEP), c.cb, c.args[0])
  }

  /** What one flush promises: each subscriber reached from the batch is called once, with its value. */
  ghost predicate Notification(t: Trie, obj: Value, batch: set<string>, calls: seq<Call>)
  {
    OnceEach(calls) && Callees(calls) == ReachAll(t, batch) &&
    forall i :: 0 <= i < |calls| ==> Delivered(t, obj, batch, calls[i])
  }

  /** Descending one path segment. */
  lemma ReachStep(t: Trie, obj: Value, rest: seq<string>)
    requires |rest| > 0 && rest[0] in t.children
    ensures Reach(t, rest) == Ls(t.children[rest[0]]) + Reach(t.children[rest[0]], rest[1..])
    ensures forall c, v :: ReachWith(t.children[rest[0]], Step(obj, rest[0]), rest[1..], c, v) ==> ReachWith(t, obj, rest, c, v)
    ensures forall c :: c in Ls(t.children[rest[0]]) ==> ReachWith(t, obj, rest, c, Step(obj, rest[0]))
  {
  }

  lemma ReachedAppend(t: Trie, obj: Value, parts: seq<string>, a: seq<Call>, b: seq<Call>)
    requires Reached(t, obj, parts, a) && Reached(t, obj, parts, b)
    ensures Reached(t, obj, parts, a + b)
  {
    forall i | 0 <= i < |a + b|
      ensures |(a + b)[i].args| == 1 && ReachWith(t, obj, parts, (a + b)[i].cb, (a + b)[i].args[0])
    {
      if i < |a| {
        assert (a + b)[i] == a[i];
      } else {
        assert (a + b)[i] == b[i - |a|];
      }
    }
  }

  /** The loop state of `parts.some(...)` in `sendUpdates`, at node `t` after `i` segments. */
  ghost predicate PathProgress(tree: Trie, obj: Value, parts: seq<string>, updated: set<Callback>,
                               t: Trie, o: Value, i: nat, quit: bool, updated': set<Callback>, calls: seq<Call>)
  {
    i <= |parts| &&
    updated <= updated' <= updated + Reach(tree, parts) &&
    (quit ==> updated + Reach(tree, parts) == updated') &&
    (!quit ==> updated + Reach(tree, parts) == updated' + Reach(t, parts[i..])) &&
    (!quit ==> forall c, v :: ReachWith(t, o, parts[i..], c, v) ==> ReachWith(tree, obj, parts, c, v)) &&
    OnceEach(calls) && Callees(calls) == updated' - updated &&
    Reached(tree, obj, parts, calls)
  }

  lemma PathStep(tree: Trie, obj: Value, parts: seq<string>, updated: set<Callback>,
                 t: Trie, o: Value, i: nat, updated': set<Callback>, calls: seq<Call>,
                 here: set<Callback>, heard: seq<Call>)
    requires PathProgress(tree, obj, parts, updated, t, o, i, false, updated', calls)
    requires i < |parts| && parts[i] in t.children
    requires here == updated' + Ls(t.children[parts[i]])
    requires OnceEach(heard) && Callees(heard) == Ls(t.children[parts[i]]) - updated'
    requires forall k :: 0 <= k < |heard| ==> heard[k].args == [Step(o, parts[i])]
    ensures PathProgress(tree, obj, parts, updated, t.children[parts[i]], Step(o, parts[i]), i + 1, false, here, calls + heard)
  {
    var rest := parts[i..];
    assert rest[0] == parts[i] && rest[1..] == parts[i + 1..];
    ReachStep(t, o, rest);
    OnceEachAppend(calls, heard);
    forall k | 0 <= k < |heard| ensures |heard[k].args| == 1 && ReachWith(tree, obj, parts, heard[k].cb, heard[k].args[0]) {
      assert heard[k].cb in Callees(heard);
    }
    ReachedAppend(tree, obj, parts, calls, heard);
  }

  /**
   * The body of the `for ... of` loop in `sendUpdates` for one key split
   * into `parts`: calls the listeners on the path while the path exists,
   * then everything below its end, skipping and recording those in
   * `updated`.
   */
  method NotifyPath(tree: Trie, obj: Value, parts: seq<string>, updated: set<Callback>)
    returns (updated': set<Callback>, calls: seq<Call>)
    ensures updated' == updated + Reach(tree, parts)
    ensures OnceEach(calls) && Callees(calls) == Reach(tree, parts) - updated
    ensures Reached(tree, obj, parts, calls)
  {
    var t := tree;
    var o := obj;
    var i := 0;
    var quit := false;
    updated' := updated;
    calls := [];
    while i < |parts| && !quit
      invariant PathProgress(tree, obj, parts, updated, t, o, i, quit, updated', calls)
      decreases |parts| - i, !quit
    {
      var part := parts[i];
      if part !in t.children {
        // `if (!tree[part]) return true`: the path leaves the trie, nobody further is told
        assert parts[i..][0] == part;
        quit := true;
      } else {
        var here, heard := Utils.CallEach(Ls(t.children[part]), Step(o, part), updated');
        PathStep(tree, obj, parts, updated, t, o, i, updated', calls, here, heard);
        t := t.children[part];
        o := Step(o, part);
        updated' := here;
        calls := calls + heard;
        i := i + 1;
      }
    }
    if !quit {
      assert parts[i..] == [];
      var below, more := Utils.WalkTree(t, o, updated');
      forall k | 0 <= k < |more| ensures |more[k].args| == 1 && ReachWith(tree, obj, parts, more[k].cb, more[k].args[0]) {
        assert ReachWith(t, o, parts[i..], more[k].cb, more[k].args[0]);
      }
      OnceEachAppend(calls, more);
      ReachedAppend(tree, obj, parts, calls, more);
      updated' := below;
      calls := calls + more;
    }
  }

  lemma NotificationStart(t: Trie, obj: Value)
    ensures Notification(t, obj, {}, []) && ReachAll(t, {}) == {}
  {
  }

  lemma NotificationGrow(t: Trie, obj: Value, done: set<string>, u: string, calls: seq<Call>, heard: seq<Call>)
    requires Notification(t, obj, done, calls)
    requires OnceEach(heard) && Callees(heard) == Reach(t, SplitOn(u, SEP)) - ReachAll(t, done)
    requires Reached(t, obj, SplitOn(u, SEP), heard)
    ensures ReachAll(t, done + {u}) == ReachAll(t, done) + Reach(t, SplitOn(u, SEP))
    ensures Notification(t, obj, done + {u}, calls + heard)
  {
    OnceEachAppend(calls, heard);
    forall i | 0 <= i < |calls + heard| ensures Delivered(t, obj, done + {u}, (calls + heard)[i]) {
      if i < |calls| {
        assert (calls + heard)[i] == calls[i];
        assert Delivered(t, obj, done, calls[i]);
      } else {
        assert (calls + heard)[i] == heard[i - |calls|];
        assert ReachWith(t, obj, SplitOn(u, SEP), heard[i - |calls|].cb, heard[i - |calls|].args[0]);
      }
    }
  }

  /**
   * Who a flush calls, in path terms: a subscriber is called exactly when
   * one of its nodes lies on the path of a pending key or below it.
   */
  lemma NotifiedAt(t: Trie, obj: Value, batch: set<string>, calls: seq<Call>, c: Callback)
    requires Notification(t, obj, batch, calls)
    ensures c in Callees(calls) <==>
      exists u :: u in batch && exists q :: |q| > 0 && (q <= SplitOn(u, SEP) || SplitOn(u, SEP) <= q) && c in ListenersAt(t, q)
  {
    forall u | u in batch {
      ReachAt(t, SplitOn(u, SEP), c);
    }
  }

  /** With what a flush calls a subscriber: the value of the stores at one of its nodes. */
  lemma NotifiedWith(t: Trie, obj: Value, batch: set<string>, calls: seq<Call>, i: nat)
    requires Notification(t, obj, batch, calls) && i < |calls|
    ensures exists u, q :: (u in batch && |q| > 0 && (q <= SplitOn(u, SEP) || SplitOn(u, SEP) <= q) &&
                            calls[i].cb in ListenersAt(t, q) && calls[i].args[0] == ValueAt(obj, q))
  {
    assert Delivered(t, obj, batch, calls[i]);
    var u :| u in batch && ReachWith(t, obj, SplitOn(u, SEP), calls[i].cb, calls[i].args[0]);
    ReachWithAt(t, obj, SplitOn(u, SEP), calls[i].cb, calls[i].args[0]);
  }

  /**
   * An update reaches its subscribers: once `update(store, how)` succeeds,
   * every subscriber with a node on or below a path the patch changes is
   * among those the next flush calls, provided no key of that path holds
   * the separator.
   */
  lemma UpdateReaches(w: World, s: Snapshot, store: string, how: Value, t: Trie, p: seq<string>, q: seq<string>, c: Callback)
    requires Updated(w, s, store, how).1.Done?
    requires p in Changed(how, [store]) && forall i :: 0 <= i < |p| ==> SEP !in p[i]
    requires |q| > 0 && (q <= p || p <= q) && c in ListenersAt(t, q)
    ensures c in ReachAll(t, Pending(Updated(w, s, store, how).0.updating))
  {
    UpdateKeyParts(how, store, p);
    ReachAt(t, p, c);
    var u := JoinWith(p, SEP);
    assert u in ChangedKeys(how, store);
    assert u in Pending(Updated(w, s, store, how).0.updating);
    assert c in Reach(t, SplitOn(u, SEP));
  }

  class Flux {
    const world: World
    var listentree: Trie
    var actionListeners: Registry
    var stores: map<string, Value>
    var actions: map<string, Value>
    var updating: Option<set<string>>
    var scheduled: nat
    var log: seq<Call>

    function Snap(): Snapshot
      reads this
    {
      Snapshot(stores, updating, scheduled, log)
    }

    function Wires(): Wiring
      reads this
    {
      Wiring(listentree, actionListeners, actions)
    }

    constructor(world: World)
      ensures this.world == world
      ensures Wires() == Wiring(Node(None, map[]), map[], map[])
      ensures Snap() == Snapshot(map[], None, 0, [])
    {
      this.world := world;
      listentree := Node(None, map[]);
      actionListeners := map[];
      stores := map[];
      actions := map[];
      updating := None;
      scheduled := 0;
      log := [];
    }

    /** `raf()`: schedules one call of `sendUpdates`; the timer itself is `Flush`. */
    method Raf()
      modifies this
      ensures Snap() == old(Snap()).(scheduled := old(scheduled) + 1)
      ensures Wires() == old(Wires())
    {
      scheduled := scheduled + 1;
    }

    /** `enqueueUpdates(updates)`. */
    method EnqueueUpdates(updates: seq<seq<string>>)
      modifies this
      ensures Snap() == Enqueued(old(Snap()), Keys(updates))
      ensures Wires() == old(Wires())
    {
      if updating.None? {
        // `!this.updating`: a set, even an empty one, counts as an open batch
        Raf();
        updating := Some({});
      }
      var pending := updating.value;
      var i := 0;
      while i < |updates|
        invariant 0 <= i <= |updates|
        invariant pending == Pending(old(updating)) + Keys(updates[..i])
      {
        assert updates[..i + 1] == updates[..i] + [updates[i]];
        pending := pending + {JoinWith(updates[i], SEP)};
        i := i + 1;
      }
      assert updates[..i] == updates;
      updating := Some(pending);
    }

    /** `update(store, how)`. */
    method Update(store: string, how: Value) returns (o: Outcome)
      modifies this
      ensures (Snap(), o) == Updated(world, old(Snap()), store, how)
      ensures Wires() == old(Wires())
    {
      var updates := GetUpdates(store, how);
      assert Keys(updates) == ChangedKeys(how, store);
      match world.patch(Lookup(stores, store), how) {
        case Rejected(e) =>
          return Threw(e);
        case Applied(v) =>
          stores := stores[store := v];
      }
      EnqueueUpdates(updates);
      o := Done;
    }

    /** `handleAction(store, fn, val)`, the three-argument form. */
    method HandleAction(store: string, handler: Value, val: Value) returns (o: Outcome)
      modifies this
      ensures (Snap(), o) == HandledAction(world, old(Snap()), store, handler, val)
      ensures Wires() == old(Wires())
    {
      if !handler.Fn? {
        return Threw("TypeError");
      }
      var patches := world.handle(handler.id, val, Lookup(stores, store));
      var i := 0;
      o := Done;
      while i < |patches|
        invariant 0 <= i <= |patches|
        invariant o == Done
        invariant Handled(world, old(Snap()), store, patches) == Handled(world, Snap(), store, patches[i..])
        invariant Wires() == old(Wires())
      {
        assert patches[i..][0] == patches[i] && patches[i..][1..] == patches[i + 1..];
        ghost var before := Snap();
        o := Update(store, patches[i]);
        assert Handled(world, before, store, patches[i..]) ==
          if o.Threw? then (Snap(), o) else Handled(world, Snap(), store, patches[i + 1..]);
        if o.Threw? {
          return;
        }
        i := i + 1;
      }
      assert patches[i..] == [];
    }

    /** One entry of an action listener list called with `val`. */
    method Run(l: ActionListener, val: Value) returns (o: Outcome)
      modifies this
      ensures (Snap(), o) == Ran(world, old(Snap()), l, val)
      ensures Wires() == old(Wires())
    {
      match l {
        case StoreHandler(store, h) =>
          o := HandleAction(store, h, val);
        case Listener(cb) =>
          log := log + [Call(cb, [val])];
          o := Done;
      }
    }

    /** `emit(actions, event, val)`, the three-argument form. */
    method Emit(group: string, event: string, val: Value) returns (o: Outcome)
      modifies this
      ensures (Snap(), o) == Dispatched(world, old(Snap()), ListenersOf(old(actionListeners), group, event), val)
      ensures Wires() == old(Wires())
    {
      if group !in actionListeners {
        return Done;
      }
      if event !in actionListeners[group] {
        return Done;
      }
      var ls := actionListeners[group][event];
      var i := 0;
      o := Done;
      while i < |ls|
        invariant 0 <= i <= |ls|
        invariant o == Done
        invariant Dispatched(world, old(Snap()), ls, val) == Dispatched(world, Snap(), ls[i..], val)
        invariant Wires() == old(Wires())
      {
        assert ls[i..][0] == ls[i] && ls[i..][1..] == ls[i + 1..];
        ghost var before := Snap();
        o := Run(ls[i], val);
        assert Dispatched(world, before, ls[i..], val) ==
          if o.Threw? then (Snap(), o) else Dispatched(world, Snap(), ls[i + 1..], val);
        if o.Threw? {
          return;
        }
        i := i + 1;
      }
      assert ls[i..] == [];
    }

    /** `sendAction(action, ...args)`; a creator returning a promise emits only when it settles. */
    method SendAction(action: ActionRef, args: seq<Value>) returns (o: Outcome)
      modifies this
      ensures Wires() == old(Wires())
      ensures Target(old(actions), action, args).None? ==> o == Threw("TypeError") && Snap() == old(Snap())
      ensures Target(old(actions), action, args).Some? ==>
        var r := Target(old(actions), action, args).value;
        var res := world.call(r.creator, r.args);
        if Thenable(res) then o == Done && Snap() == old(Snap())
        else (Snap(), o) == Dispatched(world, old(Snap()), ListenersOf(old(actionListeners), r.group, r.event), res)
    {
      var name, all;
      match action {
        case Named(v) =>
          name, all := v, args;
        case Listed(items) =>
          // `args = action.slice(1).concat(args); action = action[0]`
          all := (if |items| > 0 then items[1..] else []) + args;
          name := if |items| > 0 then items[0] else Undefined;
      }
      if !name.Str? {
        // `action.split` is not a function
        return Threw("TypeError");
      }
      var parts := SplitOn(name.s, '.');
      var group := parts[0];
      var event := if |parts| > 1 then parts[1] else "undefined";
      var creators := Lookup(actions, group);
      if creators.Undefined? || creators.Null? || !Get(creators, event).Fn? {
        // reading `event` of undefined, or calling `apply` on a non-function
        return Threw("TypeError");
      }
      var res := world.call(Get(creators, event).id, all);
      if Thenable(res) {
        return Done;
      }
      o := Emit(group, event, res);
    }

    /** `onAction(actions, event, fn)`: appends to the list of that group and event, creating it as needed. */
    method OnAction(group: string, event: string, l: ActionListener)
      modifies this
      ensures forall g, e :: (ListenersOf(actionListeners, g, e) ==
        ListenersOf(old(actionListeners), g, e) + (if g == group && e == event then [l] else []))
      ensures Snap() == old(Snap()) && listentree == old(listentree) && actions == old(actions)
    {
      if group !in actionListeners {
        actionListeners := actionListeners[group := map[event := [l]]];
        return;
      }
      if event !in actionListeners[group] {
        actionListeners := actionListeners[group := actionListeners[group][event := [l]]];
        return;
      }
      actionListeners := actionListeners[group := actionListeners[group][event := actionListeners[group][event] + [l]]];
    }

    /** The inner `for (let event in listeners[actions])` loop of `addStore`. */
    method AddGroup(store: string, group: string, events: map<string, Value>)
      modifies this
      ensures forall g, e :: (ListenersOf(actionListeners, g, e) ==
        ListenersOf(old(actionListeners), g, e) + (if g == group && e in events then [StoreHandler(store, events[e])] else []))
      ensures Snap() == old(Snap()) && listentree == old(listentree) && actions == old(actions)
    {
      var todo := events.Keys;
      while todo != {}
        invariant todo <= events.Keys
        invariant forall g, e :: (ListenersOf(actionListeners, g, e) ==
          ListenersOf(old(actionListeners), g, e) +
          (if g == group && e in events && e !in todo then [StoreHandler(store, events[e])] else []))
        invariant Snap() == old(Snap()) && listentree == old(listentree) && actions == old(actions)
        decreases todo
      {
        var event :| event in todo;
        OnAction(group, event, StoreHandler(store, events[event]));
        todo := todo - {event};
      }
    }

    /** `addStore(name, init, listeners)`. */
    method AddStore(name: string, init: Value, listeners: Value) returns (o: Outcome)
      modifies this
      ensures !init.Fn? ==> o == Threw("TypeError") && Snap() == old(Snap()) && Wires() == old(Wires())
      ensures init.Fn? ==> o == Done && stores == old(stores)[name := world.call(init.id, [])]
      ensures init.Fn? ==> forall g, e :: (ListenersOf(actionListeners, g, e) ==
        ListenersOf(old(actionListeners), g, e) + HandlerFor(name, listeners, g, e))
      ensures updating == old(updating) && scheduled == old(scheduled) && log == old(log)
      ensures listentree == old(listentree) && actions == old(actions)
    {
      if !init.Fn? {
        return Threw("TypeError");
      }
      stores := stores[name := world.call(init.id, [])];
      o := Done;
      if !listeners.Obj? {
        // `for ... in` over anything but an object enumerates nothing here
        return;
      }
      var todo := listeners.fields.Keys;
      while todo != {}
        invariant todo <= listeners.fields.Keys
        invariant forall g, e :: (ListenersOf(actionListeners, g, e) ==
          ListenersOf(old(actionListeners), g, e) + (if g !in todo then HandlerFor(name, listeners, g, e) else []))
        invariant stores == old(stores)[name := world.call(init.id, [])]
        invariant updating == old(updating) && scheduled == old(scheduled) && log == old(log)
        invariant listentree == old(listentree) && actions == old(actions)
        decreases todo
      {
        var group :| group in todo;
        var events := listeners.fields[group];
        if events.Obj? {
          AddGroup(name, group, events.fields);
        }
        todo := todo - {group};
      }
    }

    /** `addActions(name, actions)`. */
    method AddActions(name: string, creators: Value)
      modifies this
      ensures actions == old(actions)[name := creators]
      ensures Snap() == old(Snap()) && listentree == old(listentree) && actionListeners == old(actionListeners)
    {
      actions := actions[name := creators];
    }

    /** `subscribe(shape, listener)`: the initial data, keyed by label. */
    method Subscribe(shape: map<string, Shape>, fn: map<string, Callback>) returns (data: map<string, Value>)
      requires Labels(Branch(shape)) <= fn.Keys
      modifies this
      ensures listentree == Walked(old(listentree), Branch(shape), None, Add, fn)
      ensures data.Keys == Labels(Branch(shape))
      ensures Utils.Extends(map[], data, Branch(shape), None, Obj(stores))
      ensures Snap() == old(Snap()) && actionListeners == old(actionListeners) && actions == old(actions)
    {
      var tree;
      tree, data := Utils.CrawlShape(shape, Obj(stores), listentree, map[], fn);
      listentree := tree;
    }

    /** `diffscribe(prev, shape, listener)`: moves a subscription and returns the data of the new labels. */
    method Diffscribe(prev: map<string, Shape>, shape: map<string, Shape>, fn: map<string, Callback>)
      returns (data: map<string, Value>)
      requires Labels(Branch(prev)) <= fn.Keys && Labels(Branch(shape)) <= fn.Keys
      modifies this
      ensures listentree == Diffed(old(listentree), prev, shape, fn)
      ensures Utils.Extends(map[], data, Branch(shape), Some(Branch(prev)), Obj(stores))
      ensures Snap() == old(Snap()) && actionListeners == old(actionListeners) && actions == old(actions)
    {
      var tree;
      tree, data := Utils.DiffShape(prev, shape, Obj(stores), listentree, map[], fn);
      listentree := tree;
    }

    /** `sendUpdates()`: announces the open batch and closes it. */
    method SendUpdates() returns (o: Outcome)
      modifies this
      ensures Wires() == old(Wires()) && stores == old(stores) && scheduled == old(scheduled)
      ensures old(updating).None? ==> o == Threw("TypeError") && Snap() == old(Snap())
      ensures old(updating).Some? ==>
        o == Done && updating == None && |old(log)| <= |log| && log[..|old(log)|] == old(log) &&
        Notification(listentree, Obj(stores), old(updating).value, log[|old(log)|..])
    {
      if updating.None? {
        // iterating `this.updating.values()` when it is undefined or null
        return Threw("TypeError");
      }
      var batch := updating.value;
      var todo := batch;
      var updated: set<Callback> := {};
      ghost var done: set<string> := {};
      ghost var calls: seq<Call> := [];
      NotificationStart(listentree, Obj(stores));
      while todo != {}
        invariant todo <= batch && done == batch - todo
        invariant updated == ReachAll(listentree, done)
        invariant log == old(log) + calls
        invariant Notification(listentree, Obj(stores), done, calls)
        invariant Wires() == old(Wires()) && stores == old(stores) && scheduled == old(scheduled) && updating == old(updating)
        decreases todo
      {
        var u :| u in todo;
        var parts := SplitOn(u, SEP);
        var heard;
        updated, heard := NotifyPath(listentree, Obj(stores), parts, updated);
        NotificationGrow(listentree, Obj(stores), done, u, calls, heard);
        log := log + heard;
        calls := calls + heard;
        done := done + {u};
        todo := todo - {u};
      }
      assert done == batch;
      assert log[|old(log)|..] == calls;
      updating := None;
      o := Done;
    }

    /** The scheduled timer firing: one pending `raf` runs `sendUpdates`. */
    method Flush() returns (o: Outcome)
      requires scheduled > 0
      modifies this
      ensures Wires() == old(Wires()) && stores == old(stores) && scheduled == old(scheduled) - 1
      ensures old(updating).None? ==> o == Threw("TypeError") && updating == None && log == old(log)
      ensures old(updating).Some? ==>
        o == Done && updating == None && |old(log)| <= |log| && log[..|old(log)|] == old(log) &&
        Notification(listentree, Obj(stores), old(updating).value, log[|old(log)|..])
    {
      scheduled := scheduled - 1;
      o := SendUpdates();
    }
  }
}
