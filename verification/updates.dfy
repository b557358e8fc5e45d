/**
 * Which store paths a patch descriptor changes. `flux.update(store, how)`
 * schedules one notification key per path of `how` that holds a command
 * (a key starting with `$`, in the `React.addons.update` language).
 */
module PatchPaths {
  import opened JsValues

  /** The character joining a path into one pending-update key (U+FDD0, a Unicode noncharacter). */
  const SEP: char := '\U{FDD0}'

  /** A patch command such as `$set` or `$push`: the first character is `$`. */
  predicate IsCommand(k: string)
  {
    |k| > 0 && k[0] == '$'
  }

  /** `v` is an object with at least one command key. */
  predicate HasCommand(v: Value)
  {
    v.Obj? && exists k :: k in v.fields && IsCommand(k)
  }

  /** No segment of `q` is a command. */
  predicate Ordinary(q: seq<string>)
  {
    forall i :: 0 <= i < |q| ==> !IsCommand(q[i])
  }

  /** The part of a descriptor found by following own keys along `q`. */
  function PatchAt(how: Value, q: seq<string>): Value
    decreases |q|
  {
    if q == [] then how else PatchAt(Get(how, q[0]), q[1..])
  }

  predicate Distinct<T(==)>(s: seq<T>)
  {
    forall i, j :: 0 <= i < j < |s| ==> s[i] != s[j]
  }

  function Elems<T(==)>(s: seq<T>): set<T>
  {
    set x | x in s
  }

  /**
   * The paths `crawlUpdates(how, path, _)` reports, as a set: `path` itself
   * when `how` holds a command, and recursively the paths under each
   * ordinary key. Anything but an object reports nothing.
   */
  ghost function Changed(how: Value, path: seq<string>): set<seq<string>>
    decreases how
  {
    match how
    case Obj(fields) =>
      (if HasCommand(how) then {path} else {}) + Deeper(fields, fields.Keys, path)
    case _ => {}
  }

  /** The paths reported under the ordinary keys in `keys`. */
  ghost function Deeper(fields: map<string, Value>, keys: set<string>, path: seq<string>): set<seq<string>>
    decreases Obj(fields), 0
  {
    set k, p | k in keys && k in fields && !IsCommand(k) && p in Changed(fields[k], path + [k]) :: p
  }

  /** The keys `enqueueUpdates` adds for a patch of store `store`. */
  ghost function ChangedKeys(how: Value, store: string): set<string>
  {
    set p | p in Changed(how, [store]) :: JoinWith(p, SEP)
  }

  lemma {:induction false} PatchAtNothing(v: Value, q: seq<string>)
    requires !v.Obj?
    ensures q != [] ==> PatchAt(v, q) == Undefined
    decreases |q|
  {
    if |q| > 1 {
      PatchAtNothing(Undefined, q[1..]);
    }
  }

  /**
   * The reference reading of `Changed`: a path is reported exactly when it
   * extends `path` by ordinary keys and the descriptor there holds a command.
   */
  lemma {:induction false} ChangedAt(how: Value, path: seq<string>, p: seq<string>)
    ensures p in Changed(how, path) <==>
      |path| <= |p| && p[..|path|] == path && Ordinary(p[|path|..]) &&
      HasCommand(PatchAt(how, p[|path|..]))
    decreases how
  {
    if |path| <= |p| && p[..|path|] == path {
      var q := p[|path|..];
      if q == [] {
        assert p == path;
        if how.Obj? {
          forall k | k in how.fields && !IsCommand(k) ensures p !in Changed(how.fields[k], path + [k]) {
            ChangedAt(how.fields[k], path + [k], p);
          }
        }
      } else if !how.Obj? {
        PatchAtNothing(how, q);
      } else {
        var k := q[0];
        var rest := p[|path| + 1..];
        assert q == [k] + rest;
        assert p[..|path| + 1] == path + [k];
        assert PatchAt(how, q) == PatchAt(Get(how, k), rest);
        forall k' | k' in how.fields && !IsCommand(k') && k' != k
          ensures p !in Changed(how.fields[k'], path + [k'])
        {
          ChangedAt(how.fields[k'], path + [k'], p);
          assert p[|path|] == k;
          assert (path + [k'])[|path|] == k';
        }
        if k in how.fields {
          ChangedAt(how.fields[k], path + [k], p);
          if !IsCommand(k) {
            assert Ordinary(q) <==> Ordinary(rest) by {
              assert forall i :: 1 <= i < |q| ==> q[i] == rest[i - 1];
            }
          }
        } else {
          PatchAtNothing(Undefined, rest);
          assert p !in Deeper(how.fields, how.fields.Keys, path);
        }
      }
    } else if how.Obj? {
      forall k | k in how.fields && !IsCommand(k) ensures p !in Changed(how.fields[k], path + [k]) {
        ChangedAt(how.fields[k], path + [k], p);
        if |path + [k]| <= |p| {
          assert p[..|path|] == p[..|path + [k]|][..|path|];
        }
      }
    }
  }

  /** Every reported path starts with the given one. */
  lemma ChangedExtends(how: Value, path: seq<string>, p: seq<string>)
    requires p in Changed(how, path)
    ensures |path| <= |p| && p[..|path|] == path
  {
    ChangedAt(how, path, p);
  }

  lemma DistinctAppend<T>(a: seq<T>, b: seq<T>)
    requires Distinct(a) && Distinct(b) && Elems(a) !! Elems(b)
    ensures Distinct(a + b) && Elems(a + b) == Elems(a) + Elems(b)
  {
    forall i, j | 0 <= i < j < |a + b| ensures (a + b)[i] != (a + b)[j] {
      if i < |a| && |a| <= j {
        assert (a + b)[i] in Elems(a);
        assert (a + b)[j] == b[j - |a|];
        assert (a + b)[j] in Elems(b);
      }
    }
  }

  /** Two accumulator segments pushed one after the other, with nothing in common. */
  lemma ChunkGrow<T>(base: seq<T>, before: seq<T>, after: seq<T>)
    requires |base| <= |before| <= |after| && before[..|base|] == base && after[..|before|] == before
    requires Distinct(before[|base|..]) && Distinct(after[|before|..])
    requires Elems(before[|base|..]) !! Elems(after[|before|..])
    ensures after[..|base|] == base && Distinct(after[|base|..])
    ensures Elems(after[|base|..]) == Elems(before[|base|..]) + Elems(after[|before|..])
  {
    assert after[|base|..] == before[|base|..] + after[|before|..];
    DistinctAppend(before[|base|..], after[|before|..]);
  }

  lemma DeeperGrow(fields: map<string, Value>, seen: set<string>, name: string, path: seq<string>)
    requires name in fields && !IsCommand(name)
    ensures Deeper(fields, seen + {name}, path) ==
      Deeper(fields, seen, path) + Changed(fields[name], path + [name])
  {
  }

  /** Every path reported under key `name` has `name` right after `path`. */
  lemma UnderKey(v: Value, path: seq<string>, name: string)
    ensures forall q :: q in Changed(v, path + [name]) ==> |path| < |q| && q[|path|] == name
  {
    forall q | q in Changed(v, path + [name]) ensures |path| < |q| && q[|path|] == name {
      ChangedExtends(v, path + [name], q);
      assert q[|path|] == q[..|path| + 1][|path|];
    }
  }

  /** The paths under key `name` are new: neither `path` nor anything under another key. */
  lemma DeeperApart(fields: map<string, Value>, seen: set<string>, name: string, path: seq<string>)
    requires name in fields && name !in seen
    ensures path !in Changed(fields[name], path + [name])
    ensures Deeper(fields, seen, path) !! Changed(fields[name], path + [name])
    ensures path !in Deeper(fields, seen, path)
  {
    UnderKey(fields[name], path, name);
    forall p | p in Deeper(fields, seen, path) ensures |path| < |p| && p[|path|] != name {
      var k :| k in seen && k in fields && !IsCommand(k) && p in Changed(fields[k], path + [k]);
      UnderKey(fields[k], path, k);
    }
  }

  /**
   * `crawlUpdates(how, path, updates)`: pushes onto `updates` every path of
   * `how` that holds a command, once each, in the order the keys are met.
   */
  method CrawlUpdates(how: Value, path: seq<string>, updates: seq<seq<string>>)
    returns (updates': seq<seq<string>>)
    ensures |updates| <= |updates'| && updates'[..|updates|] == updates
    ensures Distinct(updates'[|updates|..])
    ensures Elems(updates'[|updates|..]) == Changed(how, path)
    decreases how
  {
    updates' := updates;
    // `!how || typeof how !== 'object'`: only objects (arrays included) are crawled
    if !Truthy(how) || !how.Obj? {
      assert updates'[|updates|..] == [];
      return;
    }
    var fields := how.fields;
    var added := false;
    var todo := fields.Keys;
    ghost var seen: set<string> := {};
    while todo != {}
      invariant todo + seen == fields.Keys && todo !! seen
      invariant |updates| <= |updates'| && updates'[..|updates|] == updates
      invariant Distinct(updates'[|updates|..])
      invariant added <==> exists k :: k in seen && IsCommand(k)
      invariant Elems(updates'[|updates|..]) == (if added then {path} else {}) + Deeper(fields, seen, path)
    {
      var name :| name in todo;
      ghost var before := updates';
      DeeperApart(fields, seen, name, path);
      if IsCommand(name) {
        if !added {
          updates' := updates' + [path];
          added := true;
          assert updates'[|before|..] == [path];
          ChunkGrow(updates, before, updates');
        }
        assert Deeper(fields, seen + {name}, path) == Deeper(fields, seen, path);
      } else {
        updates' := CrawlUpdates(fields[name], path + [name], updates');
        ChunkGrow(updates, before, updates');
        DeeperGrow(fields, seen, name, path);
      }
      todo := todo - {name};
      seen := seen + {name};
    }
    assert seen == fields.Keys;
  }

  /**
   * `getUpdates(store, how)`: the distinct paths, each starting with the
   * store's name, whose part of the store `how` changes.
   */
  method GetUpdates(store: string, how: Value) returns (updates: seq<seq<string>>)
    ensures Distinct(updates)
    ensures Elems(updates) == Changed(how, [store])
  {
    updates := CrawlUpdates(how, [store], []);
    assert updates[0..] == updates;
  }

  /** Each reported path is the store name followed by ordinary keys, non-empty. */
  lemma UpdatePathShape(how: Value, store: string, p: seq<string>)
    requires p in Changed(how, [store])
    ensures |p| >= 1 && p[0] == store && Ordinary(p[1..])
    ensures HasCommand(PatchAt(how, p[1..]))
  {
    ChangedAt(how, [store], p);
  }

  /**
   * A pending key splits back into its path when no segment holds the
   * separator, and distinct such paths never share a key.
   */
  lemma UpdateKeyParts(how: Value, store: string, p: seq<string>)
    requires p in Changed(how, [store])
    requires forall i :: 0 <= i < |p| ==> SEP !in p[i]
    ensures SplitOn(JoinWith(p, SEP), SEP) == p
  {
    UpdatePathShape(how, store, p);
    SplitJoin(p, SEP);
  }
}
