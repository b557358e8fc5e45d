/**
 * Subscription shapes and the listener trie, with the specifications of
 * what subscribing, diffing, unsubscribing and notifying do to them.
 */
module ListenerTrie {
  import opened JsValues

  /** One entry of a subscription shape: a label string, or a nested shape object. */
  datatype Shape = Label(text: string) | Branch(fields: map<string, Shape>)

  /**
   * A node of the listener trie: its `$listeners` set, if one has been
   * created, and its child nodes keyed by path segment.
   */
  datatype Trie = Node(listeners: Option<set<Callback>>, children: map<string, Trie>)

  /** A freshly created node, `{}`. */
  const Empty: Trie := Node(None, map[])

  /** The listeners held at a node; a node without `$listeners` holds none. */
  function Ls(t: Trie): set<Callback>
  {
    if t.listeners.Some? then t.listeners.value else {}
  }

  /** `listentree[name]`, or the empty node that `crawlShape` creates when it is missing. */
  function Child(t: Trie, name: string): Trie
  {
    if name in t.children then t.children[name] else Empty
  }

  /** The node at a path, if the trie has one. */
  function NodeAt(t: Trie, p: seq<string>): Option<Trie>
    decreases |p|
  {
    if p == [] then Some(t)
    else if p[0] in t.children then NodeAt(t.children[p[0]], p[1..])
    else None
  }

  lemma NodeAtCons(t: Trie, k: string, q: seq<string>)
    ensures NodeAt(t, [k] + q) == if k in t.children then NodeAt(t.children[k], q) else None
  {
    assert ([k] + q)[0] == k && ([k] + q)[1..] == q;
  }

  lemma ValueAtCons(obj: Value, k: string, q: seq<string>)
    ensures ValueAt(obj, [k] + q) == ValueAt(Step(obj, k), q)
  {
    assert ([k] + q)[0] == k && ([k] + q)[1..] == q;
  }

  /** The listeners registered at a path; none where the trie has no node. */
  function ListenersAt(t: Trie, p: seq<string>): set<Callback>
  {
    match NodeAt(t, p)
    case None => {}
    case Some(n) => Ls(n)
  }

  // ---- shapes ----

  /** Every label occurring anywhere in a shape. */
  function Labels(s: Shape): set<string>
    decreases s
  {
    match s
    case Label(l) => {l}
    case Branch(m) => set k, l | k in m && l in Labels(m[k]) :: l
  }

  lemma LabelsOfEntry(m: map<string, Shape>, k: string)
    requires k in m
    ensures Labels(m[k]) <= Labels(Branch(m))
  {
  }

  /** `other ? other[name] : null` on the shape being compared against. */
  function OtherStep(other: Option<Shape>, name: string): Option<Shape>
  {
    if other.Some? && other.value.Branch? && name in other.value.fields
    then Some(other.value.fields[name])
    else None
  }

  /** The shape cursor after following a path. */
  function Follow(other: Option<Shape>, p: seq<string>): Option<Shape>
    decreases |p|
  {
    if p == [] then other else Follow(OtherStep(other, p[0]), p[1..])
  }

  /** The entry of a shape at a path. */
  function ShapeAt(s: Shape, p: seq<string>): Option<Shape>
  {
    Follow(Some(s), p)
  }

  /** The label at `p` when `p` is a terminal path of the shape. */
  function LabelAt(s: Shape, p: seq<string>): Option<string>
  {
    match ShapeAt(s, p)
    case Some(Label(l)) => Some(l)
    case _ => None
  }

  /** `!other` is false: an object, or a non-empty label string. */
  predicate Present(other: Option<Shape>)
  {
    other.Some? && (other.value.Branch? || other.value.text != "")
  }

  lemma {:induction false} FollowNone(p: seq<string>)
    ensures Follow(None, p) == None
    decreases |p|
  {
    if p != [] {
      FollowNone(p[1..]);
    }
  }

  lemma {:induction false} LabelAtIsLabel(s: Shape, p: seq<string>)
    requires LabelAt(s, p).Some?
    ensures LabelAt(s, p).value in Labels(s)
    decreases |p|
  {
    if p != [] {
      match s
      case Label(_) =>
        FollowNone(p[1..]);
        assert false;
      case Branch(m) =>
        if p[0] in m {
          LabelAtIsLabel(m[p[0]], p[1..]);
          LabelsOfEntry(m, p[0]);
        } else {
          FollowNone(p[1..]);
          assert false;
        }
    }
  }

  // ---- subscribing and diffing ----

  /** The callback `fn` holds for label `l`: none when it has no entry. */
  function CallbackOf(fn: map<string, Callback>, l: string): set<Callback>
  {
    if l in fn then {fn[l]} else {}
  }

  /** Which of the two `walkShape` callbacks of `diffShape` runs at each terminal. */
  datatype Mode = Remove | Add

  /**
   * The trie after walking shape `s` from node `t` against the other shape
   * `other`: every node on the shape's paths is created, every terminal
   * gets a `$listeners` set, and where `other` has nothing truthy at that
   * path the terminal's callback is removed or added. `crawlShape` is the
   * `Add` walk against no other shape.
   */
  ghost function Walked(t: Trie, s: Shape, other: Option<Shape>, mode: Mode, fn: map<string, Callback>): Trie
    decreases s
  {
    match s
    case Label(l) =>
      var here := Ls(t);
      var updated := if Present(other) then here
                     else if mode == Remove then here - CallbackOf(fn, l)
                     else here + CallbackOf(fn, l);
      Node(Some(updated), t.children)
    case Branch(m) =>
      Node(t.listeners, map k | k in t.children.Keys + m.Keys ::
        if k in m then
          Walked(Child(t, k), m[k], OtherStep(other, k), mode, fn)
        else t.children[k])
  }

  /** The listeners a walk leaves at a node that held `here`. */
  function Edited(here: set<Callback>, s: Shape, other: Option<Shape>, mode: Mode, fn: map<string, Callback>, p: seq<string>): set<Callback>
  {
    match LabelAt(s, p)
    case None => here
    case Some(l) =>
      if Present(Follow(other, p)) then here
      else if mode == Remove then here - CallbackOf(fn, l)
      else here + CallbackOf(fn, l)
  }

  /**
   * A walk keeps every node and creates the nodes on the shape's paths;
   * at every path it changes only a terminal's listener set, and there
   * only by the terminal's own callback, and only when the other shape
   * has nothing truthy at that path.
   */
  lemma {:induction false} WalkedAt(t: Trie, s: Shape, other: Option<Shape>, mode: Mode, fn: map<string, Callback>, p: seq<string>)
    ensures NodeAt(Walked(t, s, other, mode, fn), p).Some? <==> NodeAt(t, p).Some? || ShapeAt(s, p).Some?
    ensures ListenersAt(Walked(t, s, other, mode, fn), p) == Edited(ListenersAt(t, p), s, other, mode, fn, p)
    decreases |p|
  {
    var w := Walked(t, s, other, mode, fn);
    if p == [] {
    } else {
      var k, rest := p[0], p[1..];
      match s
      case Label(_) =>
        FollowNone(rest);
        assert ShapeAt(s, p) == None;
      case Branch(m) =>
        if k in m {
          WalkedAt(Child(t, k), m[k], OtherStep(other, k), mode, fn, rest);
          assert w.children[k] == Walked(Child(t, k), m[k], OtherStep(other, k), mode, fn);
          assert ShapeAt(s, p) == ShapeAt(m[k], rest);
          if k !in t.children {
            assert NodeAt(Empty, rest).Some? <==> rest == [];
          }
        } else {
          FollowNone(rest);
          assert ShapeAt(s, p) == None;
          assert (k in w.children) == (k in t.children);
          if k in t.children {
            assert w.children[k] == t.children[k];
          }
        }
    }
  }

  /** Subscribing the same shape and callbacks a second time changes nothing. */
  lemma {:induction false} CrawlIdempotent(t: Trie, s: Shape, fn: map<string, Callback>)
    ensures Walked(Walked(t, s, None, Add, fn), s, None, Add, fn) == Walked(t, s, None, Add, fn)
    decreases s
  {
    var w := Walked(t, s, None, Add, fn);
    match s
    case Label(l) =>
    case Branch(m) =>
      var ww := Walked(w, s, None, Add, fn);
      forall k | k in m
        ensures Walked(Child(w, k), m[k], None, Add, fn) == Child(w, k)
      {
        assert Child(w, k) == Walked(Child(t, k), m[k], OtherStep(None, k), Add, fn);
        CrawlIdempotent(Child(t, k), m[k], fn);
      }
      assert ww.children == w.children;
  }

  /** The listeners `fn` gives the terminals of `a` that have no truthy counterpart in `b`. */
  function Unmatched(a: map<string, Shape>, b: map<string, Shape>, fn: map<string, Callback>, p: seq<string>): set<Callback>
  {
    match LabelAt(Branch(a), p)
    case None => {}
    case Some(l) => if Present(ShapeAt(Branch(b), p)) then {} else CallbackOf(fn, l)
  }

  /** The trie after `diffShape(prev, next, …)`: the removal walk over `prev`, then the adding walk over `next`. */
  ghost function Diffed(t: Trie, prev: map<string, Shape>, next: map<string, Shape>, fn: map<string, Callback>): Trie
  {
    Walked(Walked(t, Branch(prev), Some(Branch(next)), Remove, fn), Branch(next), Some(Branch(prev)), Add, fn)
  }

  /**
   * Diffing keeps every node and creates the nodes of both shapes; at each
   * path it removes the callback of a terminal of `prev` that `next` lacks
   * and adds the callback of a terminal of `next` that `prev` lacks. A path
   * present in both keeps its listeners, even when its label changed.
   */
  lemma DiffAt(t: Trie, prev: map<string, Shape>, next: map<string, Shape>, fn: map<string, Callback>, p: seq<string>)
    ensures NodeAt(Diffed(t, prev, next, fn), p).Some? <==>
            NodeAt(t, p).Some? || ShapeAt(Branch(prev), p).Some? || ShapeAt(Branch(next), p).Some?
    ensures ListenersAt(Diffed(t, prev, next, fn), p) ==
            (ListenersAt(t, p) - Unmatched(prev, next, fn, p)) + Unmatched(next, prev, fn, p)
  {
    var t1 := Walked(t, Branch(prev), Some(Branch(next)), Remove, fn);
    WalkedAt(t, Branch(prev), Some(Branch(next)), Remove, fn, p);
    WalkedAt(t1, Branch(next), Some(Branch(prev)), Add, fn, p);
  }

  /**
   * Diffing from `a` to `b` and straight back to `a` restores every
   * listener set, provided the callbacks the first diff removes were
   * registered and the ones it adds were not.
   */
  lemma DiffRoundTrip(t: Trie, a: map<string, Shape>, b: map<string, Shape>, fn: map<string, Callback>)
    requires forall p :: Unmatched(a, b, fn, p) <= ListenersAt(t, p)
    requires forall p :: Unmatched(b, a, fn, p) !! ListenersAt(t, p)
    ensures forall p :: ListenersAt(Diffed(Diffed(t, a, b, fn), b, a, fn), p) == ListenersAt(t, p)
  {
    var t1 := Diffed(t, a, b, fn);
    forall p ensures ListenersAt(Diffed(t1, b, a, fn), p) == ListenersAt(t, p) {
      DiffAt(t, a, b, fn, p);
      DiffAt(t1, b, a, fn, p);
    }
  }

  /**
   * The trie after the removal walk the tests call `unsubShape`: each
   * terminal's callback leaves its node's set; missing nodes are skipped.
   */
  ghost function Unsubscribed(t: Trie, s: Shape, fn: map<string, Callback>): Trie
    decreases s
  {
    match s
    case Label(l) =>
      Node(if t.listeners.Some? then Some(t.listeners.value - CallbackOf(fn, l)) else None, t.children)
    case Branch(m) =>
      Node(t.listeners, map k | k in t.children ::
        if k in m then
          Unsubscribed(t.children[k], m[k], fn)
        else t.children[k])
  }

  /** The callbacks `fn` gives the terminal at `p`, if `p` is one. */
  function TerminalCallback(s: Shape, fn: map<string, Callback>, p: seq<string>): set<Callback>
  {
    match LabelAt(s, p)
    case None => {}
    case Some(l) => CallbackOf(fn, l)
  }

  /**
   * Unsubscribing creates and deletes no node and removes exactly the
   * shape's own callbacks from its terminals; every other callback stays.
   */
  lemma {:induction false} UnsubscribedAt(t: Trie, s: Shape, fn: map<string, Callback>, p: seq<string>)
    ensures NodeAt(Unsubscribed(t, s, fn), p).Some? <==> NodeAt(t, p).Some?
    ensures ListenersAt(Unsubscribed(t, s, fn), p) == ListenersAt(t, p) - TerminalCallback(s, fn, p)
    decreases |p|
  {
    var u := Unsubscribed(t, s, fn);
    if p != [] {
      var k, rest := p[0], p[1..];
      match s
      case Label(_) =>
        FollowNone(rest);
        assert ShapeAt(s, p) == None;
      case Branch(m) =>
        if k in m && k in t.children {
          UnsubscribedAt(t.children[k], m[k], fn, rest);
          assert u.children[k] == Unsubscribed(t.children[k], m[k], fn);
          assert ShapeAt(s, p) == ShapeAt(m[k], rest);
        } else if k in m {
          assert k !in u.children;
        } else {
          FollowNone(rest);
          assert ShapeAt(s, p) == None;
          if k in t.children {
            assert u.children[k] == t.children[k];
          }
        }
    }
  }

  /**
   * Subscribing and then unsubscribing the same shape and callbacks
   * restores every listener set, provided none of those callbacks was
   * registered at the shape's terminals before.
   */
  lemma SubscribeUnsubscribe(t: Trie, s: Shape, fn: map<string, Callback>)
    requires forall p :: TerminalCallback(s, fn, p) !! ListenersAt(t, p)
    ensures forall p :: ListenersAt(Unsubscribed(Walked(t, s, None, Add, fn), s, fn), p) == ListenersAt(t, p)
  {
    var w := Walked(t, s, None, Add, fn);
    forall p ensures ListenersAt(Unsubscribed(w, s, fn), p) == ListenersAt(t, p) {
      WalkedAt(t, s, None, Add, fn, p);
      UnsubscribedAt(w, s, fn, p);
      FollowNone(p);
    }
  }

  // ---- what a walk reports into `result` ----

  /** The labels whose `result` entry walking `s` against `other` writes. */
  function Reported(s: Shape, other: Option<Shape>): set<string>
    decreases s
  {
    match s
    case Label(x) => if Present(other) then {} else {x}
    case Branch(m) => set k, l | k in m && l in Reported(m[k], OtherStep(other, k)) :: l
  }

  lemma ReportedEntry(m: map<string, Shape>, other: Option<Shape>, k: string)
    requires k in m
    ensures Reported(m[k], OtherStep(other, k)) <= Reported(Branch(m), other)
  {
  }

  /** Walking `s` against `other` over the data `obj` writes `v` into `result[l]` at some terminal. */
  ghost predicate ReportsWith(s: Shape, other: Option<Shape>, obj: Value, l: string, v: Value)
    decreases s
  {
    match s
    case Label(x) => x == l && !Present(other) && v == obj
    case Branch(m) => exists k :: k in m && ReportsWith(m[k], OtherStep(other, k), Step(obj, k), l, v)
  }

  /** Against no other shape, every label of the shape is reported. */
  lemma {:induction false} ReportedAll(s: Shape)
    ensures Reported(s, None) == Labels(s)
    decreases s
  {
    match s
    case Label(_) =>
    case Branch(m) =>
      forall k | k in m ensures Reported(m[k], OtherStep(None, k)) == Labels(m[k]) {
        ReportedAll(m[k]);
      }
  }

  /**
   * A reported value is the value found at a terminal path carrying that
   * label, at which the other shape has nothing truthy.
   */
  lemma {:induction false} ReportsWithAt(s: Shape, other: Option<Shape>, obj: Value, l: string, v: Value)
    requires ReportsWith(s, other, obj, l, v)
    ensures exists p :: LabelAt(s, p) == Some(l) && !Present(Follow(other, p)) && v == ValueAt(obj, p)
    decreases s
  {
    match s
    case Label(_) =>
      assert LabelAt(s, []) == Some(l);
    case Branch(m) =>
      var k :| k in m && ReportsWith(m[k], OtherStep(other, k), Step(obj, k), l, v);
      ReportsWithAt(m[k], OtherStep(other, k), Step(obj, k), l, v);
      var q :| LabelAt(m[k], q) == Some(l) && !Present(Follow(OtherStep(other, k), q)) && v == ValueAt(Step(obj, k), q);
      var p := [k] + q;
      assert p[0] == k && p[1..] == q;
      assert ShapeAt(s, p) == ShapeAt(m[k], q);
      assert LabelAt(s, p) == Some(l);
  }

  /**
   * The reported labels are exactly those at a terminal path of `s` where
   * the other shape has nothing truthy.
   */
  lemma {:induction false} ReportedAt(s: Shape, other: Option<Shape>, l: string)
    ensures l in Reported(s, other) <==> exists p :: LabelAt(s, p) == Some(l) && !Present(Follow(other, p))
    decreases s
  {
    match s {
      case Label(x) =>
        if l in Reported(s, other) {
          assert LabelAt(s, []) == Some(l);
        }
        forall p | LabelAt(s, p) == Some(l) && !Present(Follow(other, p)) ensures l in Reported(s, other) {
          if p != [] {
            FollowNone(p[1..]);
            assert false;
          }
        }
      case Branch(m) =>
        if l in Reported(s, other) {
          var k :| k in m && l in Reported(m[k], OtherStep(other, k));
          ReportedAt(m[k], OtherStep(other, k), l);
          var q :| LabelAt(m[k], q) == Some(l) && !Present(Follow(OtherStep(other, k), q));
          var p := [k] + q;
          assert p[0] == k && p[1..] == q;
          assert LabelAt(s, p) == Some(l);
        }
        forall p | LabelAt(s, p) == Some(l) && !Present(Follow(other, p)) ensures l in Reported(s, other) {
          if p == [] {
            assert false;
          } else if p[0] !in m {
            FollowNone(p[1..]);
            assert false;
          } else {
            var k := p[0];
            assert LabelAt(m[k], p[1..]) == Some(l);
            ReportedAt(m[k], OtherStep(other, k), l);
            ReportedEntry(m, other, k);
          }
        }
    }
  }

  // ---- notification ----

  /** Every listener at a node strictly below `t`. */
  function Below(t: Trie): set<Callback>
    decreases t
  {
    set k, c | k in t.children && c in Ls(t.children[k]) + Below(t.children[k]) :: c
  }

  /** `c` sits at a node strictly below `t` whose value, stepping down from `obj`, is `v`. */
  ghost predicate BelowWith(t: Trie, obj: Value, c: Callback, v: Value)
    decreases t
  {
    exists k :: k in t.children &&
      ((c in Ls(t.children[k]) && v == Step(obj, k)) || BelowWith(t.children[k], Step(obj, k), c, v))
  }

  /**
   * The listeners a flush reaches for one changed path: those at every
   * node along the path while its segments exist, and, when the whole path
   * exists, every listener below its last node.
   */
  function Reach(t: Trie, parts: seq<string>): set<Callback>
    decreases |parts|
  {
    if parts == [] then Below(t)
    else if parts[0] !in t.children then {}
    else Ls(t.children[parts[0]]) + Reach(t.children[parts[0]], parts[1..])
  }

  /** `c` is reached for the changed path `parts` at a node whose value is `v`. */
  ghost predicate ReachWith(t: Trie, obj: Value, parts: seq<string>, c: Callback, v: Value)
    decreases |parts|
  {
    if parts == [] then BelowWith(t, obj, c, v)
    else
      parts[0] in t.children &&
      ((c in Ls(t.children[parts[0]]) && v == Step(obj, parts[0])) ||
       ReachWith(t.children[parts[0]], Step(obj, parts[0]), parts[1..], c, v))
  }

  /** The listeners below a node are those at the non-empty paths from it. */
  lemma {:induction false} BelowAt(t: Trie, c: Callback)
    ensures c in Below(t) <==> exists q :: |q| > 0 && c in ListenersAt(t, q)
    decreases t
  {
    if c in Below(t) {
      var k :| k in t.children && c in Ls(t.children[k]) + Below(t.children[k]);
      var child := t.children[k];
      if c in Ls(child) {
        NodeAtCons(t, k, []);
        assert [k] + [] == [k];
        assert c in ListenersAt(t, [k]);
      } else {
        BelowAt(child, c);
        var q :| |q| > 0 && c in ListenersAt(child, q);
        assert ([k] + q)[0] == k && ([k] + q)[1..] == q;
        assert c in ListenersAt(t, [k] + q);
      }
    }
    if exists q :: |q| > 0 && c in ListenersAt(t, q) {
      var q :| |q| > 0 && c in ListenersAt(t, q);
      var k := q[0];
      assert k in t.children;
      var child := t.children[k];
      assert q == [k] + q[1..];
      NodeAtCons(t, k, q[1..]);
      if |q| == 1 {
        assert c in Ls(child);
      } else {
        assert c in ListenersAt(child, q[1..]);
        BelowAt(child, c);
      }
      assert c in Ls(t.children[k]) + Below(t.children[k]);
    }
  }

  /**
   * A flush for the changed path `parts` reaches exactly the listeners at
   * the non-empty prefixes of `parts` and at the paths that extend it.
   */
  lemma {:induction false} ReachAt(t: Trie, parts: seq<string>, c: Callback)
    ensures c in Reach(t, parts) <==> exists q :: |q| > 0 && (q <= parts || parts <= q) && c in ListenersAt(t, q)
    decreases |parts|
  {
    if parts == [] {
      BelowAt(t, c);
    } else {
      var k := parts[0];
      if k !in t.children {
        forall q | |q| > 0 && (q <= parts || parts <= q)
          ensures c !in ListenersAt(t, q)
        {
          assert q == [q[0]] + q[1..] && q[0] == k;
          NodeAtCons(t, q[0], q[1..]);
        }
      } else {
        var child := t.children[k];
        ReachAt(child, parts[1..], c);
        if c in Reach(t, parts) {
          if c in Ls(child) {
            assert [k] <= parts;
            NodeAtCons(t, k, []);
            assert [k] + [] == [k];
            assert c in ListenersAt(t, [k]);
          } else {
            var q :| |q| > 0 && (q <= parts[1..] || parts[1..] <= q) && c in ListenersAt(child, q);
            var q' := [k] + q;
            assert q'[0] == k && q'[1..] == q;
            assert parts == [k] + parts[1..];
            assert q' <= parts || parts <= q';
            assert c in ListenersAt(t, q');
          }
        }
        if exists q :: |q| > 0 && (q <= parts || parts <= q) && c in ListenersAt(t, q) {
          var q :| |q| > 0 && (q <= parts || parts <= q) && c in ListenersAt(t, q);
          assert q[0] == k;
          assert q == [k] + q[1..];
          NodeAtCons(t, k, q[1..]);
          if |q| == 1 {
            assert c in Ls(child);
          } else {
            assert c in ListenersAt(child, q[1..]);
            assert q[1..] <= parts[1..] || parts[1..] <= q[1..];
          }
        }
      }
    }
  }

  /** A listener reached below a node is passed the value at its own node's path. */
  lemma {:induction false} BelowWithAt(t: Trie, obj: Value, c: Callback, v: Value)
    requires BelowWith(t, obj, c, v)
    ensures exists q :: |q| > 0 && c in ListenersAt(t, q) && v == ValueAt(obj, q)
    decreases t
  {
    var k :| k in t.children &&
      ((c in Ls(t.children[k]) && v == Step(obj, k)) || BelowWith(t.children[k], Step(obj, k), c, v));
    var child := t.children[k];
    if c in Ls(child) && v == Step(obj, k) {
      NodeAtCons(t, k, []);
      ValueAtCons(obj, k, []);
      assert [k] + [] == [k];
      assert c in ListenersAt(t, [k]) && v == ValueAt(obj, [k]);
    } else {
      BelowWithAt(child, Step(obj, k), c, v);
      var q :| |q| > 0 && c in ListenersAt(child, q) && v == ValueAt(Step(obj, k), q);
      assert ([k] + q)[0] == k && ([k] + q)[1..] == q;
      assert c in ListenersAt(t, [k] + q) && v == ValueAt(obj, [k] + q);
    }
  }

  /** A listener reached for a changed path is passed the value at its own node's path. */
  lemma {:induction false} ReachWithAt(t: Trie, obj: Value, parts: seq<string>, c: Callback, v: Value)
    requires ReachWith(t, obj, parts, c, v)
    ensures exists q :: |q| > 0 && (q <= parts || parts <= q) && c in ListenersAt(t, q) && v == ValueAt(obj, q)
    decreases |parts|
  {
    if parts == [] {
      BelowWithAt(t, obj, c, v);
    } else {
      var k := parts[0];
      var child := t.children[k];
      if c in Ls(child) && v == Step(obj, k) {
        NodeAtCons(t, k, []);
        ValueAtCons(obj, k, []);
        assert [k] + [] == [k] && [k] <= parts;
        assert c in ListenersAt(t, [k]) && v == ValueAt(obj, [k]);
      } else {
        ReachWithAt(child, Step(obj, k), parts[1..], c, v);
        var q :| |q| > 0 && (q <= parts[1..] || parts[1..] <= q) && c in ListenersAt(child, q) && v == ValueAt(Step(obj, k), q);
        var q' := [k] + q;
        assert q'[0] == k && q'[1..] == q;
        assert parts == [k] + parts[1..];
        assert q' <= parts || parts <= q';
        assert c in ListenersAt(t, q') && v == ValueAt(obj, q');
      }
    }
  }
}
