/**
 * The listener-trie walks of `lib/utils.js`. Each walk takes the trie it
 * mutates in place as a value and returns the updated trie, and the
 * `result` object it fills as a map; keys and set members are visited in
 * an arbitrary order, so everything stated holds for every iteration order.
 */
module Utils {
  import opened JsValues
  import opened ListenerTrie

  // ---- what a walk writes into `result` ----

  /**
   * `after` is `before` with a walk of `s` against `other` over `obj`
   * recorded: exactly the reported labels are added or overwritten, each
   * with the value at one of its terminals, and every other entry is kept.
   */
  ghost predicate Extends(before: map<string, Value>, after: map<string, Value>, s: Shape, other: Option<Shape>, obj: Value)
  {
    after.Keys == before.Keys + Reported(s, other) &&
    (forall l :: l in before && l !in Reported(s, other) ==> after[l] == before[l]) &&
    (forall l :: l in Reported(s, other) ==> ReportsWith(s, other, obj, l, after[l]))
  }

  /** A terminal records the value at its path unless the other shape has something truthy there. */
  lemma RecordTerminal(before: map<string, Value>, l: string, other: Option<Shape>, v: Value)
    ensures Extends(before, if Present(other) then before else before[l := v], Label(l), other, v)
  {
  }

  /** `crawlShape` at a terminal either starts the node's set with the callback or adds it. */
  lemma CrawledTerminal(t: Trie, l: string, fn: map<string, Callback>)
    requires l in fn
    ensures Walked(t, Label(l), None, Add, fn) ==
      Node(Some(if t.listeners.None? then {fn[l]} else t.listeners.value + {fn[l]}), t.children)
  {
    assert Ls(t) + CallbackOf(fn, l) == if t.listeners.None? then {fn[l]} else t.listeners.value + {fn[l]};
  }

  /** The labels reported by a shape with one more entry. */
  lemma ReportedGrow(seen: map<string, Shape>, name: string, s: Shape, other: Option<Shape>)
    requires name !in seen
    ensures Reported(Branch(seen[name := s]), other) == Reported(Branch(seen), other) + Reported(s, OtherStep(other, name))
  {
    var r1 := seen[name := s];
    forall l | l in Reported(Branch(seen), other) ensures l in Reported(Branch(r1), other) {
      var k :| k in seen && l in Reported(seen[k], OtherStep(other, k));
      ReportedEntry(r1, other, k);
    }
    ReportedEntry(r1, other, name);
    forall l | l in Reported(Branch(r1), other)
      ensures l in Reported(Branch(seen), other) || l in Reported(s, OtherStep(other, name))
    {
      var k :| k in r1 && l in Reported(r1[k], OtherStep(other, k));
      if k != name {
        ReportedEntry(seen, other, k);
      }
    }
  }

  /** A value reported by a shape is still reported once the shape has one more entry. */
  lemma ReportsWithGrow(seen: map<string, Shape>, name: string, s: Shape, other: Option<Shape>, obj: Value, l: string, v: Value)
    requires name !in seen
    requires ReportsWith(Branch(seen), other, obj, l, v) || ReportsWith(s, OtherStep(other, name), Step(obj, name), l, v)
    ensures ReportsWith(Branch(seen[name := s]), other, obj, l, v)
  {
    var r1 := seen[name := s];
    if !ReportsWith(s, OtherStep(other, name), Step(obj, name), l, v) {
      var j :| j in seen && ReportsWith(seen[j], OtherStep(other, j), Step(obj, j), l, v);
      assert j in r1 && r1[j] == seen[j];
    } else {
      assert name in r1 && r1[name] == s;
    }
  }

  lemma KeysGrow(base: map<string, Value>, before: map<string, Value>, after: map<string, Value>,
                 seen: map<string, Shape>, name: string, s: Shape, other: Option<Shape>)
    requires name !in seen
    requires before.Keys == base.Keys + Reported(Branch(seen), other)
    requires forall l :: l in base && l !in Reported(Branch(seen), other) ==> before[l] == base[l]
    requires after.Keys == before.Keys + Reported(s, OtherStep(other, name))
    requires forall l :: l in before && l !in Reported(s, OtherStep(other, name)) ==> after[l] == before[l]
    ensures after.Keys == base.Keys + Reported(Branch(seen[name := s]), other)
    ensures forall l :: l in base && l !in Reported(Branch(seen[name := s]), other) ==> after[l] == base[l]
  {
    ReportedGrow(seen, name, s, other);
  }

  lemma ValuesGrow(before: map<string, Value>, after: map<string, Value>,
                   seen: map<string, Shape>, name: string, s: Shape, other: Option<Shape>, obj: Value)
    requires name !in seen
    requires forall l :: l in Reported(Branch(seen), other) ==> l in before && ReportsWith(Branch(seen), other, obj, l, before[l])
    requires forall l :: l in before && l !in Reported(s, OtherStep(other, name)) ==> l in after && after[l] == before[l]
    requires forall l :: l in Reported(s, OtherStep(other, name)) ==>
      l in after && ReportsWith(s, OtherStep(other, name), Step(obj, name), l, after[l])
    ensures forall l :: l in Reported(Branch(seen[name := s]), other) ==>
      l in after && ReportsWith(Branch(seen[name := s]), other, obj, l, after[l])
  {
    ReportedGrow(seen, name, s, other);
    forall l | l in Reported(Branch(seen[name := s]), other)
      ensures l in after && ReportsWith(Branch(seen[name := s]), other, obj, l, after[l])
    {
      ReportsWithGrow(seen, name, s, other, obj, l, after[l]);
    }
  }

  /** Recording the walk of one more entry `name: s` extends what the walk of `seen` recorded. */
  lemma ExtendsGrow(base: map<string, Value>, before: map<string, Value>, after: map<string, Value>,
                    seen: map<string, Shape>, name: string, s: Shape, other: Option<Shape>, obj: Value)
    requires name !in seen
    requires Extends(base, before, Branch(seen), other, obj)
    requires Extends(before, after, s, OtherStep(other, name), Step(obj, name))
    ensures Extends(base, after, Branch(seen[name := s]), other, obj)
  {
    KeysGrow(base, before, after, seen, name, s, other);
    ValuesGrow(before, after, seen, name, s, other, obj);
  }

  // ---- subscribing ----

  /** A node whose children are the walked children of `t` is the walked `t`. */
  lemma WalkedChildren(t: Trie, shape: map<string, Shape>, other: Option<Shape>, mode: Mode,
                       fn: map<string, Callback>, children: map<string, Trie>)
    requires children.Keys == t.children.Keys + shape.Keys
    requires forall k :: k in children ==>
      children[k] == if k in shape then Walked(Child(t, k), shape[k], OtherStep(other, k), mode, fn) else t.children[k]
    ensures Node(t.listeners, children) == Walked(t, Branch(shape), other, mode, fn)
  {
  }

  /**
   * Where the loop of a walk over `shape` stands in the trie: the keys not
   * in `todo` have been visited, `seen` holds their entries, and
   * `children` holds the walked nodes for them and the untouched nodes for
   * the rest.
   */
  ghost predicate TreeProgress(tree: Trie, shape: map<string, Shape>, other: Option<Shape>, mode: Mode, fn: map<string, Callback>,
                               todo: set<string>, seen: map<string, Shape>, children: map<string, Trie>)
  {
    todo <= shape.Keys &&
    (forall k :: k in seen <==> k in shape && k !in todo) &&
    (forall k :: k in seen ==> seen[k] == shape[k]) &&
    children.Keys == tree.children.Keys + seen.Keys &&
    (forall k :: k in children ==>
      children[k] == if k in seen then Walked(Child(tree, k), seen[k], OtherStep(other, k), mode, fn) else tree.children[k])
  }

  /** Where the loop of a walk stands, trie and `result` together. */
  ghost predicate WalkProgress(tree: Trie, shape: map<string, Shape>, other: Option<Shape>, mode: Mode, fn: map<string, Callback>,
                               obj: Value, todo: set<string>, seen: map<string, Shape>, children: map<string, Trie>,
                               result: map<string, Value>, result': map<string, Value>)
  {
    TreeProgress(tree, shape, other, mode, fn, todo, seen, children) &&
    (mode == Remove ==> result' == result) &&
    (mode == Add ==> Extends(result, result', Branch(seen), other, obj))
  }

  lemma TreeStep(tree: Trie, shape: map<string, Shape>, other: Option<Shape>, mode: Mode, fn: map<string, Callback>,
                 todo: set<string>, seen: map<string, Shape>, children: map<string, Trie>, name: string, child: Trie)
    requires TreeProgress(tree, shape, other, mode, fn, todo, seen, children)
    requires name in todo
    requires child == Walked(Child(tree, name), shape[name], OtherStep(other, name), mode, fn)
    ensures TreeProgress(tree, shape, other, mode, fn, todo - {name}, seen[name := shape[name]], children[name := child])
  {
  }

  lemma WalkStart(tree: Trie, shape: map<string, Shape>, other: Option<Shape>, mode: Mode, fn: map<string, Callback>,
                  obj: Value, result: map<string, Value>)
    ensures WalkProgress(tree, shape, other, mode, fn, obj, shape.Keys, map[], tree.children, result, result)
  {
  }

  /** The node a walk finds for a key it has not visited yet. */
  lemma WalkNext(tree: Trie, shape: map<string, Shape>, other: Option<Shape>, mode: Mode, fn: map<string, Callback>,
                 obj: Value, todo: set<string>, seen: map<string, Shape>, children: map<string, Trie>,
                 result: map<string, Value>, result': map<string, Value>, name: string)
    requires WalkProgress(tree, shape, other, mode, fn, obj, todo, seen, children, result, result')
    requires name in todo
    ensures name in shape && Labels(shape[name]) <= Labels(Branch(shape))
    ensures (if name in children then children[name] else Empty) == Child(tree, name)
  {
    LabelsOfEntry(shape, name);
  }

  lemma WalkStep(tree: Trie, shape: map<string, Shape>, other: Option<Shape>, mode: Mode, fn: map<string, Callback>,
                 obj: Value, todo: set<string>, seen: map<string, Shape>, children: map<string, Trie>,
                 result: map<string, Value>, before: map<string, Value>, after: map<string, Value>,
                 name: string, child: Trie)
    requires WalkProgress(tree, shape, other, mode, fn, obj, todo, seen, children, result, before)
    requires name in todo
    requires child == Walked(Child(tree, name), shape[name], OtherStep(other, name), mode, fn)
    requires mode == Remove ==> after == before
    requires mode == Add ==> Extends(before, after, shape[name], OtherStep(other, name), Step(obj, name))
    ensures WalkProgress(tree, shape, other, mode, fn, obj, todo - {name}, seen[name := shape[name]],
                         children[name := child], result, after)
  {
    TreeStep(tree, shape, other, mode, fn, todo, seen, children, name, child);
    if mode == Add {
      ExtendsGrow(result, before, after, seen, name, shape[name], other, obj);
    }
  }

  lemma WalkDone(tree: Trie, shape: map<string, Shape>, other: Option<Shape>, mode: Mode, fn: map<string, Callback>,
                 obj: Value, seen: map<string, Shape>, children: map<string, Trie>,
                 result: map<string, Value>, result': map<string, Value>)
    requires WalkProgress(tree, shape, other, mode, fn, obj, {}, seen, children, result, result')
    ensures Node(tree.listeners, children) == Walked(tree, Branch(shape), other, mode, fn)
    ensures mode == Remove ==> result' == result
    ensures mode == Add ==> Extends(result, result', Branch(shape), other, obj)
  {
    assert seen == shape;
    WalkedChildren(tree, shape, other, mode, fn, children);
  }

  /** Unsubscribing a shape with no entries leaves the trie as it is. */
  lemma UnsubscribedNothing(t: Trie, fn: map<string, Callback>)
    ensures Unsubscribed(t, Branch(map[]), fn) == t
  {
    assert Unsubscribed(t, Branch(map[]), fn).children == t.children;
  }

  /** Unsubscribing one more entry `name: s` replaces that child, if there is one, with its own unsubscription. */
  lemma UnsubscribedGrow(t: Trie, seen: map<string, Shape>, name: string, s: Shape, fn: map<string, Callback>)
    requires name !in seen
    ensures Unsubscribed(t, Branch(seen[name := s]), fn) ==
      if name in t.children then
        Node(t.listeners, Unsubscribed(t, Branch(seen), fn).children[name := Unsubscribed(t.children[name], s, fn)])
      else Unsubscribed(t, Branch(seen), fn)
  {
    var u0 := Unsubscribed(t, Branch(seen), fn);
    var u1 := Unsubscribed(t, Branch(seen[name := s]), fn);
    if name in t.children {
      assert u1.children == u0.children[name := Unsubscribed(t.children[name], s, fn)];
    } else {
      assert u1.children == u0.children;
    }
  }

  /**
   * `crawlShape(shape, obj, listentree, result, fn)`: adds `fn[label]` to
   * the `$listeners` of the node at every terminal path, creating nodes on
   * the way, and writes the value found at that path into `result[label]`.
   */
  method CrawlShape(shape: map<string, Shape>, obj: Value, tree: Trie, result: map<string, Value>, fn: map<string, Callback>)
    returns (tree': Trie, result': map<string, Value>)
    requires Labels(Branch(shape)) <= fn.Keys
    ensures tree' == Walked(tree, Branch(shape), None, Add, fn)
    ensures result'.Keys == result.Keys + Labels(Branch(shape))
    ensures Extends(result, result', Branch(shape), None, obj)
    decreases Branch(shape), 0
  {
    var children := tree.children;
    result' := result;
    var todo := shape.Keys;
    ghost var seen: map<string, Shape> := map[];
    WalkStart(tree, shape, None, Add, fn, obj, result);
    while todo != {}
      invariant WalkProgress(tree, shape, None, Add, fn, obj, todo, seen, children, result, result')
      decreases todo
    {
      var name :| name in todo;
      WalkNext(tree, shape, None, Add, fn, obj, todo, seen, children, result, result', name);
      // `if (!listentree[name]) listentree[name] = {}`
      var child := if name in children then children[name] else Empty;
      ghost var before := result';
      child, result' := CrawlEntry(shape[name], obj, name, child, result', fn);
      WalkStep(tree, shape, None, Add, fn, obj, todo, seen, children, result, before, result', name, child);
      children := children[name := child];
      seen := seen[name := shape[name]];
      todo := todo - {name};
    }
    WalkDone(tree, shape, None, Add, fn, obj, seen, children, result, result');
    tree' := Node(tree.listeners, children);
    ReportedAll(Branch(shape));
  }

  /** The `forEach` callback of `crawlShape` for one entry of the shape, whose node is `child`. */
  method CrawlEntry(s: Shape, obj: Value, name: string, child: Trie, result: map<string, Value>, fn: map<string, Callback>)
    returns (child': Trie, result': map<string, Value>)
    requires Labels(s) <= fn.Keys
    ensures child' == Walked(child, s, None, Add, fn)
    ensures Extends(result, result', s, OtherStep(None, name), Step(obj, name))
    decreases s, 1
  {
    match s {
      case Label(l) =>
        result' := result[l := if Truthy(obj) then Get(obj, name) else Null];
        if child.listeners.None? {
          child' := Node(Some({fn[l]}), child.children);
        } else {
          child' := Node(Some(child.listeners.value + {fn[l]}), child.children);
        }
        CrawledTerminal(child, l, fn);
        RecordTerminal(result, l, None, Step(obj, name));
      case Branch(m) =>
        child', result' := CrawlShape(m, if Truthy(obj) then Get(obj, name) else Null, child, result, fn);
    }
  }

  /**
   * `walkShape(shape, other, obj, listentree, fn)` with the callback
   * `diffShape` passes it: creates the nodes on `shape`'s paths and a
   * `$listeners` set at each terminal, and where `other` has nothing truthy
   * at that path removes the terminal's callback (`Remove`) or adds it and
   * records the value found there in `result` (`Add`).
   */
  method WalkShape(shape: map<string, Shape>, other: Option<Shape>, obj: Value, tree: Trie, mode: Mode,
                   fn: map<string, Callback>, result: map<string, Value>)
    returns (tree': Trie, result': map<string, Value>)
    requires Labels(Branch(shape)) <= fn.Keys
    ensures tree' == Walked(tree, Branch(shape), other, mode, fn)
    ensures mode == Remove ==> result' == result
    ensures mode == Add ==> Extends(result, result', Branch(shape), other, obj)
    decreases Branch(shape), 0
  {
    var children := tree.children;
    result' := result;
    var todo := shape.Keys;
    ghost var seen: map<string, Shape> := map[];
    WalkStart(tree, shape, other, mode, fn, obj, result);
    while todo != {}
      invariant WalkProgress(tree, shape, other, mode, fn, obj, todo, seen, children, result, result')
      decreases todo
    {
      var name :| name in todo;
      WalkNext(tree, shape, other, mode, fn, obj, todo, seen, children, result, result', name);
      // `if (!listentree[name]) listentree[name] = {}`
      var child := if name in children then children[name] else Empty;
      ghost var before := result';
      child, result' := WalkEntry(shape[name], other, obj, name, child, mode, fn, result');
      WalkStep(tree, shape, other, mode, fn, obj, todo, seen, children, result, before, result', name, child);
      children := children[name := child];
      seen := seen[name := shape[name]];
      todo := todo - {name};
    }
    WalkDone(tree, shape, other, mode, fn, obj, seen, children, result, result');
    tree' := Node(tree.listeners, children);
  }

  /** The `forEach` callback of `walkShape` for one entry of the shape, whose node is `child`. */
  method WalkEntry(s: Shape, other: Option<Shape>, obj: Value, name: string, child: Trie, mode: Mode,
                   fn: map<string, Callback>, result: map<string, Value>)
    returns (child': Trie, result': map<string, Value>)
    requires Labels(s) <= fn.Keys
    ensures child' == Walked(child, s, OtherStep(other, name), mode, fn)
    ensures mode == Remove ==> result' == result
    ensures mode == Add ==> Extends(result, result', s, OtherStep(other, name), Step(obj, name))
    decreases s, 1
  {
    var there := OtherStep(other, name);
    var data := if Truthy(obj) then Get(obj, name) else Null;
    match s {
      case Label(l) =>
        // `if (!listentree[name].$listeners) listentree[name].$listeners = new Set()`
        var here := if child.listeners.None? then {} else child.listeners.value;
        result' := result;
        // the callback: `if (!other) { listeners.delete(fn[attr]) }` or `{ listeners.add(fn[attr]); result[attr] = data }`
        if !Present(there) {
          if mode == Remove {
            here := here - {fn[l]};
          } else {
            here := here + {fn[l]};
            result' := result[l := data];
          }
        }
        child' := Node(Some(here), child.children);
        RecordTerminal(result, l, there, data);
      case Branch(m) =>
        child', result' := WalkShape(m, there, data, child, mode, fn, result);
    }
  }

  /**
   * `diffShape(prev, shape, obj, listentree, result, fn)`, passing the trie
   * to both walks: removes the callbacks of `prev`'s terminals that `shape`
   * lacks, then adds the callbacks of `shape`'s terminals that `prev` lacks
   * and reports only those in `result`.
   */
  method DiffShape(prev: map<string, Shape>, shape: map<string, Shape>, obj: Value, tree: Trie,
                   result: map<string, Value>, fn: map<string, Callback>)
    returns (tree': Trie, result': map<string, Value>)
    requires Labels(Branch(prev)) <= fn.Keys && Labels(Branch(shape)) <= fn.Keys
    ensures tree' == Diffed(tree, prev, shape, fn)
    ensures Extends(result, result', Branch(shape), Some(Branch(prev)), obj)
  {
    var removed, kept := WalkShape(prev, Some(Branch(shape)), obj, tree, Remove, fn, result);
    tree', result' := WalkShape(shape, Some(Branch(prev)), obj, removed, Add, fn, kept);
  }

  // ---- unsubscribing ----

  /**
   * The removal walk the tests call `unsubShape`: deletes `fn[label]` from
   * the `$listeners` of the node at every terminal path, skipping paths the
   * trie does not have.
   */
  method UnsubShape(shape: map<string, Shape>, tree: Trie, fn: map<string, Callback>) returns (tree': Trie)
    requires Labels(Branch(shape)) <= fn.Keys
    ensures tree' == Unsubscribed(tree, Branch(shape), fn)
    decreases Branch(shape)
  {
    var children := tree.children;
    var todo := shape.Keys;
    ghost var seen: map<string, Shape> := map[];
    UnsubscribedNothing(tree, fn);
    while todo != {}
      invariant todo <= shape.Keys
      invariant seen.Keys == shape.Keys - todo
      invariant forall k :: k in seen ==> seen[k] == shape[k]
      invariant Node(tree.listeners, children) == Unsubscribed(tree, Branch(seen), fn)
      decreases todo
    {
      var name :| name in todo;
      LabelsOfEntry(shape, name);
      UnsubscribedGrow(tree, seen, name, shape[name], fn);
      if name in children {
        var child := children[name];
        match shape[name] {
          case Label(l) =>
            if child.listeners.Some? {
              child := Node(Some(child.listeners.value - {fn[l]}), child.children);
            }
          case Branch(m) =>
            child := UnsubShape(m, child, fn);
        }
        children := children[name := child];
      }
      seen := seen[name := shape[name]];
      todo := todo - {name};
    }
    assert seen == shape;
    tree' := Node(tree.listeners, children);
  }

  // ---- notifying ----

  /** The listeners at and below the children of `t` named in `keys`. */
  function BelowSome(t: Trie, keys: set<string>): set<Callback>
  {
    set k, c | k in keys && k in t.children && c in Ls(t.children[k]) + Below(t.children[k]) :: c
  }

  lemma BelowSomeGrow(t: Trie, keys: set<string>, name: string)
    requires name in t.children
    ensures BelowSome(t, keys + {name}) == BelowSome(t, keys) + Ls(t.children[name]) + Below(t.children[name])
  {
    var child := t.children[name];
    forall c | c in Ls(child) + Below(child) ensures c in BelowSome(t, keys + {name}) {
      assert name in keys + {name} && name in t.children && c in Ls(t.children[name]) + Below(t.children[name]);
    }
  }

  lemma BelowSomeEnds(t: Trie)
    ensures BelowSome(t, t.children.Keys) == Below(t)
    ensures BelowSome(t, {}) == {}
  {
  }

  /**
   * `calls` invoked each listener that `updated'` gained over `updated`
   * exactly once, each with one argument: the value at a node below `tree`
   * that holds it.
   */
  ghost predicate Notified(tree: Trie, obj: Value, updated: set<Callback>, updated': set<Callback>, calls: seq<Call>)
  {
    OnceEach(calls) && Callees(calls) == updated' - updated &&
    forall i :: 0 <= i < |calls| ==> |calls[i].args| == 1 && BelowWith(tree, obj, calls[i].cb, calls[i].args[0])
  }

  /** Appending the calls made at one child node, with the child's value. */
  lemma NotifyHere(tree: Trie, obj: Value, updated: set<Callback>, mid: set<Callback>, calls: seq<Call>,
                   name: string, heard: seq<Call>)
    requires Notified(tree, obj, updated, mid, calls) && updated <= mid
    requires name in tree.children
    requires OnceEach(heard) && Callees(heard) == Ls(tree.children[name]) - mid
    requires forall i :: 0 <= i < |heard| ==> heard[i].args == [Step(obj, name)]
    ensures Notified(tree, obj, updated, mid + Ls(tree.children[name]), calls + heard)
  {
    OnceEachAppend(calls, heard);
    forall i | 0 <= i < |calls + heard|
      ensures |(calls + heard)[i].args| == 1 && BelowWith(tree, obj, (calls + heard)[i].cb, (calls + heard)[i].args[0])
    {
      if i < |calls| {
        assert (calls + heard)[i] == calls[i];
      } else {
        var c := heard[i - |calls|];
        assert (calls + heard)[i] == c;
        assert c.cb in Callees(heard);
      }
    }
  }

  /** Appending the calls a child's own walk made. */
  lemma NotifyChild(tree: Trie, obj: Value, updated: set<Callback>, mid: set<Callback>, calls: seq<Call>,
                    name: string, deeper: set<Callback>, more: seq<Call>)
    requires Notified(tree, obj, updated, mid, calls) && updated <= mid
    requires name in tree.children
    requires deeper == mid + Below(tree.children[name])
    requires Notified(tree.children[name], Step(obj, name), mid, deeper, more)
    ensures Notified(tree, obj, updated, deeper, calls + more)
  {
    OnceEachAppend(calls, more);
    forall i | 0 <= i < |calls + more|
      ensures |(calls + more)[i].args| == 1 && BelowWith(tree, obj, (calls + more)[i].cb, (calls + more)[i].args[0])
    {
      if i < |calls| {
        assert (calls + more)[i] == calls[i];
      } else {
        assert (calls + more)[i] == more[i - |calls|];
        assert BelowWith(tree.children[name], Step(obj, name), more[i - |calls|].cb, more[i - |calls|].args[0]);
      }
    }
  }

  /**
   * The listener loop shared by `walkTree` and `sendUpdates`: each listener
   * of the set not yet in `updated` is added to it and called once with `val`.
   */
  method CallEach(listeners: set<Callback>, val: Value, updated: set<Callback>)
    returns (updated': set<Callback>, calls: seq<Call>)
    ensures updated' == updated + listeners
    ensures OnceEach(calls) && Callees(calls) == listeners - updated
    ensures forall i :: 0 <= i < |calls| ==> calls[i].args == [val]
  {
    updated' := updated;
    calls := [];
    var pending := listeners;
    while pending != {}
      invariant pending <= listeners
      invariant updated' == updated + (listeners - pending)
      invariant OnceEach(calls) && Callees(calls) == updated' - updated
      invariant forall i :: 0 <= i < |calls| ==> calls[i].args == [val]
      decreases pending
    {
      var fn :| fn in pending;
      pending := pending - {fn};
      if fn !in updated' {
        CalleesSingle(Call(fn, [val]));
        OnceEachAppend(calls, [Call(fn, [val])]);
        updated' := updated' + {fn};
        calls := calls + [Call(fn, [val])];
      }
    }
  }

  /**
   * `walkTree(tree, obj, updated)`: calls every listener below `tree` that
   * is not in `updated` yet, once, with the value at its node, and adds it
   * to `updated`.
   */
  method WalkTree(tree: Trie, obj: Value, updated: set<Callback>) returns (updated': set<Callback>, calls: seq<Call>)
    ensures updated' == updated + Below(tree)
    ensures OnceEach(calls) && Callees(calls) == Below(tree) - updated
    ensures forall i :: 0 <= i < |calls| ==>
      |calls[i].args| == 1 && BelowWith(tree, obj, calls[i].cb, calls[i].args[0])
    decreases tree
  {
    updated' := updated;
    calls := [];
    var todo := tree.children.Keys;
    BelowSomeEnds(tree);
    while todo != {}
      invariant todo <= tree.children.Keys
      invariant updated' == updated + BelowSome(tree, tree.children.Keys - todo)
      invariant Notified(tree, obj, updated, updated', calls)
      decreases todo
    {
      var name :| name in todo;
      var child := tree.children[name];
      var val := Step(obj, name);
      ghost var done := tree.children.Keys - todo;
      // `if (tree[name].$listeners) tree[name].$listeners.forEach(...)`; an absent set has no members
      var here, heard := CallEach(Ls(child), val, updated');
      NotifyHere(tree, obj, updated, updated', calls, name, heard);
      calls := calls + heard;
      updated' := here;
      var deeper, more := WalkTree(child, val, updated');
      NotifyChild(tree, obj, updated, updated', calls, name, deeper, more);
      calls := calls + more;
      updated' := deeper;
      BelowSomeGrow(tree, done, name);
      todo := todo - {name};
      assert done + {name} == tree.children.Keys - todo;
    }
  }
}
