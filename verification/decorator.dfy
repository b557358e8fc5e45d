/**
 * The part of the `fluxify` component decorator that prepares a
 * subscription: one updater callback per label of the data shape.
 */
module Decorator {
  import opened JsValues
  import opened ListenerTrie

  /**
   * `after` is `before` with one updater added for each label of `s` it
   * lacked: `fn` bound to that label, so that a notification with value
   * `v` becomes `fn(label, v)`; existing entries are kept.
   */
  ghost predicate Made(before: map<string, Callback>, after: map<string, Callback>, s: Shape, fn: Callback)
  {
    after.Keys == before.Keys + Labels(s) &&
    (forall l :: l in before ==> after[l] == before[l]) &&
    (forall l :: l in after && l !in before ==> after[l] == Bound(fn, Str(l)))
  }

  lemma LabelsGrow(seen: map<string, Shape>, name: string, s: Shape)
    requires name !in seen
    ensures Labels(Branch(seen[name := s])) == Labels(Branch(seen)) + Labels(s)
  {
    var m := seen[name := s];
    assert m[name] == s;
    forall l | l in Labels(Branch(seen)) ensures l in Labels(Branch(m)) {
      var k :| k in seen && l in Labels(seen[k]);
      assert m[k] == seen[k];
    }
  }

  lemma MadeGrow(base: map<string, Callback>, mid: map<string, Callback>, after: map<string, Callback>,
                 seen: map<string, Shape>, name: string, s: Shape, fn: Callback)
    requires name !in seen
    requires Made(base, mid, Branch(seen), fn) && Made(mid, after, s, fn)
    ensures Made(base, after, Branch(seen[name := s]), fn)
  {
    LabelsGrow(seen, name, s);
  }

  /**
   * `makeListeners(shape, fn, listeners)`: gives every label of the shape
   * an updater, keeping one that is already there.
   */
  method MakeListeners(shape: map<string, Shape>, fn: Callback, listeners: map<string, Callback>)
    returns (listeners': map<string, Callback>)
    ensures listeners'.Keys == listeners.Keys + Labels(Branch(shape))
    ensures forall l :: l in listeners ==> listeners'[l] == listeners[l]
    ensures forall l :: l in listeners' && l !in listeners ==> listeners'[l] == Bound(fn, Str(l))
    decreases Branch(shape), 0
  {
    listeners' := listeners;
    var todo := shape.Keys;
    ghost var seen: map<string, Shape> := map[];
    while todo != {}
      invariant todo <= shape.Keys
      invariant forall k :: k in seen <==> k in shape && k !in todo
      invariant forall k :: k in seen ==> seen[k] == shape[k]
      invariant Made(listeners, listeners', Branch(seen), fn)
      decreases todo
    {
      var name :| name in todo;
      ghost var mid := listeners';
      listeners' := MakeEntry(shape[name], fn, listeners');
      MadeGrow(listeners, mid, listeners', seen, name, shape[name], fn);
      seen := seen[name := shape[name]];
      todo := todo - {name};
    }
    assert seen == shape;
  }

  /** One iteration of the `for ... in` loop of `makeListeners`. */
  method MakeEntry(s: Shape, fn: Callback, listeners: map<string, Callback>) returns (listeners': map<string, Callback>)
    ensures Made(listeners, listeners', s, fn)
    decreases s, 1
  {
    match s {
      case Label(l) =>
        listeners' := if l in listeners then listeners else listeners[l := Bound(fn, Str(l))];
      case Branch(m) =>
        listeners' := MakeListeners(m, fn, listeners);
    }
  }

  /**
   * Calling the updater made for label `l` with a notified value `v` runs
   * the component's `update(l, v)`.
   */
  lemma UpdaterCall(fn: Callback, l: string, v: Value)
    ensures Invoke(Bound(fn, Str(l)), [v]) == Invoke(fn, [Str(l), v])
  {
    assert [Str(l)] + [v] == [Str(l), v];
  }
}
