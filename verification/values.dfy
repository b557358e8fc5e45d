/**
 * The JavaScript values the library moves around: store contents, patch
 * descriptors, action results and the callbacks it stores and invokes.
 */
module JsValues {

  datatype Option<+T> = None | Some(value: T)

  /** A thrown exception; only the `TypeError`s the library itself raises are named. */
  datatype Outcome = Done | Threw(error: string)

  /**
   * A JavaScript value. Objects (arrays included) are their own data
   * properties; a function value is an opaque identity whose behaviour is
   * supplied from outside the model.
   */
  datatype Value =
    | Undefined
    | Null
    | Bool(b: bool)
    | Num(n: int)
    | Str(s: string)
    | Obj(fields: map<string, Value>)
    | Fn(id: nat)

  /** JavaScript truthiness (`!v` is false). */
  predicate Truthy(v: Value)
  {
    match v
    case Undefined => false
    case Null => false
    case Bool(b) => b
    case Num(n) => n != 0
    case Str(s) => s != ""
    case Obj(_) => true
    case Fn(_) => true
  }

  /** `v[name]` on a value that is not null or undefined: own data properties only. */
  function Get(v: Value, name: string): Value
  {
    if v.Obj? && name in v.fields then v.fields[name] else Undefined
  }

  /** The cursor step used throughout the library: `obj ? obj[name] : null`. */
  function Step(obj: Value, name: string): Value
  {
    if Truthy(obj) then Get(obj, name) else Null
  }

  /** The value reached from `obj` by stepping through `path` one segment at a time. */
  function ValueAt(obj: Value, path: seq<string>): Value
    decreases |path|
  {
    if path == [] then obj else ValueAt(Step(obj, path[0]), path[1..])
  }

  /** `m[key]`, or undefined when the key is missing. */
  function Lookup(m: map<string, Value>, key: string): Value
  {
    if key in m then m[key] else Undefined
  }

  /**
   * A listener callback, compared by identity. `Bound(f, a)` is the new
   * function object made by `f.bind(null, a)`.
   */
  datatype Callback = Plain(id: nat) | Bound(target: Callback, arg: Value)

  /** What runs when `cb` is called with `args`: the underlying function and its full argument list. */
  function Invoke(cb: Callback, args: seq<Value>): (nat, seq<Value>)
  {
    match cb
    case Plain(id) => (id, args)
    case Bound(f, a) => Invoke(f, [a] + args)
  }

  /** One invocation of a listener callback, in the order the library made it. */
  datatype Call = Call(cb: Callback, args: seq<Value>)

  /** The callbacks invoked by a sequence of calls. */
  function Callees(calls: seq<Call>): set<Callback>
  {
    set i | 0 <= i < |calls| :: calls[i].cb
  }

  /** No callback is invoked twice. */
  predicate OnceEach(calls: seq<Call>)
  {
    forall i, j :: 0 <= i < j < |calls| ==> calls[i].cb != calls[j].cb
  }

  lemma CalleesSingle(c: Call)
    ensures OnceEach([c]) && Callees([c]) == {c.cb}
  {
    assert [c][0] == c;
  }

  lemma OnceEachAppend(a: seq<Call>, b: seq<Call>)
    requires OnceEach(a) && OnceEach(b) && Callees(a) !! Callees(b)
    ensures OnceEach(a + b) && Callees(a + b) == Callees(a) + Callees(b)
  {
    forall i, j | 0 <= i < j < |a + b| ensures (a + b)[i].cb != (a + b)[j].cb {
      if j >= |a| && i < |a| {
        assert (a + b)[i].cb in Callees(a);
        assert (a + b)[j] == b[j - |a|];
        assert (a + b)[j].cb in Callees(b);
      }
    }
    forall c | c in Callees(a) + Callees(b) ensures c in Callees(a + b) {
      if c in Callees(a) {
        var i :| 0 <= i < |a| && a[i].cb == c;
        assert (a + b)[i] == a[i];
      } else {
        var i :| 0 <= i < |b| && b[i].cb == c;
        assert (a + b)[|a| + i] == b[i];
      }
    }
  }

  // ---- `Array.prototype.join` and `String.prototype.split` on a one-character separator ----

  /** `parts.join(sep)`. */
  function JoinWith(parts: seq<string>, sep: char): string
  {
    if |parts| == 0 then ""
    else if |parts| == 1 then parts[0]
    else parts[0] + [sep] + JoinWith(parts[1..], sep)
  }

  /** `s.split(sep)`: never empty; the empty string splits into one empty segment. */
  function SplitOn(s: string, sep: char): (r: seq<string>)
    ensures |r| >= 1
    ensures forall i :: 0 <= i < |r| ==> sep !in r[i]
  {
    if |s| == 0 then [""]
    else
      var rest := SplitOn(s[1..], sep);
      if s[0] == sep then [""] + rest else [[s[0]] + rest[0]] + rest[1..]
  }

  /** Splitting `a + t` where `a` has no separator glues `a` to the first segment of `t`. */
  lemma {:induction false} SplitPrefix(a: string, t: string, sep: char)
    requires sep !in a
    ensures SplitOn(a + t, sep) == [a + SplitOn(t, sep)[0]] + SplitOn(t, sep)[1..]
  {
    if a != [] {
      assert (a + t)[1..] == a[1..] + t;
      SplitPrefix(a[1..], t, sep);
      assert [a[0]] + (a[1..] + SplitOn(t, sep)[0]) == a + SplitOn(t, sep)[0];
    } else {
      var r := SplitOn(t, sep);
      assert a + t == t && a + r[0] == r[0];
      assert r == [r[0]] + r[1..];
    }
  }

  /** Joining then splitting gives the segments back, provided none contains the separator. */
  lemma {:induction false} SplitJoin(parts: seq<string>, sep: char)
    requires |parts| >= 1
    requires forall i :: 0 <= i < |parts| ==> sep !in parts[i]
    ensures SplitOn(JoinWith(parts, sep), sep) == parts
  {
    if |parts| == 1 {
      SplitPrefix(parts[0], "", sep);
      assert parts[0] + "" == parts[0];
      assert parts == [parts[0]];
    } else {
      var t := JoinWith(parts[1..], sep);
      SplitJoin(parts[1..], sep);
      assert parts[0] + [sep] + t == parts[0] + ([sep] + t);
      SplitPrefix(parts[0], [sep] + t, sep);
      assert ([sep] + t)[1..] == t;
      var S := SplitOn([sep] + t, sep);
      assert S == [""] + parts[1..];
      assert S[0] == "" && S[1..] == parts[1..];
      assert parts[0] + S[0] == parts[0];
      assert JoinWith(parts, sep) == parts[0] + ([sep] + t);
      assert parts == [parts[0]] + parts[1..];
    }
  }

  /** Splitting then joining gives the string back, whatever it contains. */
  lemma {:induction false} JoinSplit(s: string, sep: char)
    ensures JoinWith(SplitOn(s, sep), sep) == s
  {
    if |s| > 0 {
      var rest := SplitOn(s[1..], sep);
      JoinSplit(s[1..], sep);
      if s[0] == sep {
        assert ([""] + rest)[1..] == rest;
        assert s == [s[0]] + s[1..];
      } else {
        var r := [[s[0]] + rest[0]] + rest[1..];
        assert r[1..] == rest[1..];
        if |rest| == 1 {
          assert s == [s[0]] + s[1..];
        } else {
          assert JoinWith(rest, sep) == rest[0] + [sep] + JoinWith(rest[1..], sep);
          assert s == [s[0]] + s[1..];
        }
      }
    }
  }

  /** Distinct separator-free paths give distinct joined keys, so a set of keys loses no path. */
  lemma JoinInjective(p: seq<string>, q: seq<string>, sep: char)
    requires |p| >= 1 && |q| >= 1
    requires forall i :: 0 <= i < |p| ==> sep !in p[i]
    requires forall i :: 0 <= i < |q| ==> sep !in q[i]
    requires JoinWith(p, sep) == JoinWith(q, sep)
    ensures p == q
  {
    SplitJoin(p, sep);
    SplitJoin(q, sep);
  }
}
