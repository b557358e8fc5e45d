/**
 * Two defects of `lib/utils.js` as written, each next to the corrected
 * walk that the rest of the model uses.
 */
module Findings {
  import opened JsValues
  import opened ListenerTrie
  import Utils

  /**
   * `walkShape` as written: the terminal case assigns into `result`, a name
   * bound nowhere in `walkShape`, so in module code the walk throws a
   * `ReferenceError` at the first terminal it meets. Only a shape without
   * terminals is walked to the end.
   */
  method WalkShapeAsWritten(shape: map<string, Shape>) returns (o: Outcome)
    ensures o == Done <==> Labels(Branch(shape)) == {}
    ensures o.Threw? ==> o.error == "ReferenceError"
    decreases Branch(shape), 0
  {
    var todo := shape.Keys;
    while todo != {}
      invariant todo <= shape.Keys
      invariant forall k :: k in shape && k !in todo ==> Labels(shape[k]) == {}
      decreases todo
    {
      var name :| name in todo;
      o := WalkEntryAsWritten(shape[name]);
      if o.Threw? {
        LabelsOfEntry(shape, name);
        return;
      }
      todo := todo - {name};
    }
    o := Done;
  }

  /** One iteration of the `forEach` callback of `walkShape` as written. */
  method WalkEntryAsWritten(s: Shape) returns (o: Outcome)
    ensures o == Done <==> Labels(s) == {}
    ensures o.Threw? ==> o.error == "ReferenceError"
    decreases s, 1
  {
    match s {
      case Label(_) =>
        o := Threw("ReferenceError");
      case Branch(m) =>
        o := WalkShapeAsWritten(m);
    }
  }

  /**
   * `diffShape` as written: its first statement passes `listeners`, a name
   * bound nowhere in `diffShape`, where the trie belongs, so every call
   * throws a `ReferenceError` before the trie or the result is touched.
   */
  method DiffShapeAsWritten(prev: map<string, Shape>, shape: map<string, Shape>, obj: Value, tree: Trie,
                            result: map<string, Value>, fn: map<string, Callback>)
    returns (tree': Trie, result': map<string, Value>, o: Outcome)
    ensures o == Threw("ReferenceError") && tree' == tree && result' == result
  {
    tree', result', o := tree, result, Threw("ReferenceError");
  }

  // ---- the `diffShape` test case ----

  const Two: Callback := Plain(2)
  const Five: Callback := Plain(5)
  const Six: Callback := Plain(6)
  const Seven: Callback := Plain(7)

  const TestFns: map<string, Callback> := map["two" := Two, "five" := Five, "six" := Six, "s7" := Seven]
  const Before: map<string, Shape> := map["one" := Label("two"), "three" := Branch(map["four" := Label("five")])]
  const After: map<string, Shape> := map["one" := Label("two"), "three" := Branch(map["seven" := Label("s7")])]
  const TestObj: Value := Obj(map["one" := Num(2), "three" := Obj(map["four" := Num(10), "seven" := Num(8)])])

  /** The trie after subscribing `Before` to an empty trie. */
  ghost function Subscribed(): Trie
  {
    Walked(Empty, Branch(Before), None, Add, TestFns)
  }

  /** The trie after then diffing from `Before` to `After`. */
  ghost function Moved(): Trie
  {
    Diffed(Subscribed(), Before, After, TestFns)
  }

  lemma MovedOne()
    ensures ListenersAt(Moved(), ["one"]) == {Two}
  {
    DiffAt(Subscribed(), Before, After, TestFns, ["one"]);
    WalkedAt(Empty, Branch(Before), None, Add, TestFns, ["one"]);
  }

  lemma MovedFour()
    ensures NodeAt(Moved(), ["three", "four"]).Some? && ListenersAt(Moved(), ["three", "four"]) == {}
    ensures NodeAt(Moved(), ["three", "four"]).value.listeners == Some({})
  {
    DiffAt(Subscribed(), Before, After, TestFns, ["three", "four"]);
    WalkedAt(Empty, Branch(Before), None, Add, TestFns, ["three", "four"]);
  }

  lemma MovedSeven()
    ensures ListenersAt(Moved(), ["three", "seven"]) == {Seven}
  {
    DiffAt(Subscribed(), Before, After, TestFns, ["three", "seven"]);
    WalkedAt(Empty, Branch(Before), None, Add, TestFns, ["three", "seven"]);
  }

  lemma ReportedMoved()
    ensures Reported(Branch(After), Some(Branch(Before))) == {"s7"}
  {
    var three := map["seven" := Label("s7")];
    var other := OtherStep(Some(Branch(Before)), "three");
    assert other == Some(Branch(map["four" := Label("five")]));
    assert OtherStep(other, "seven") == None;
    assert Reported(three["seven"], OtherStep(other, "seven")) == {"s7"};
    assert Reported(Branch(three), other) == {"s7"};
    assert After["three"] == Branch(three);
    assert Reported(Label("two"), OtherStep(Some(Branch(Before)), "one")) == {};
  }

  lemma MovedRoot()
    ensures ListenersAt(Moved(), []) == {}
  {
    DiffAt(Subscribed(), Before, After, TestFns, []);
    WalkedAt(Empty, Branch(Before), None, Add, TestFns, []);
  }

  lemma MovedThree()
    ensures ListenersAt(Moved(), ["three"]) == {}
  {
    DiffAt(Subscribed(), Before, After, TestFns, ["three"]);
    WalkedAt(Empty, Branch(Before), None, Add, TestFns, ["three"]);
  }

  /** The only value the adding walk can record for `s7` is the data at `three.seven`, 8. */
  lemma ReportedValue(v: Value)
    ensures ReportsWith(Branch(After), Some(Branch(Before)), TestObj, "s7", v) <==> v == Num(8)
  {
    var other := OtherStep(Some(Branch(Before)), "three");
    var three := map["seven" := Label("s7")];
    var data := Step(TestObj, "three");
    assert After["three"] == Branch(three);
    assert other == Some(Branch(map["four" := Label("five")]));
    assert OtherStep(other, "seven") == None;
    assert data == Obj(map["four" := Num(10), "seven" := Num(8)]);
    assert Step(data, "seven") == Num(8);
    assert ReportsWith(Branch(three), other, data, "s7", v) <==> v == Num(8) by {
      assert ReportsWith(three["seven"], OtherStep(other, "seven"), Step(data, "seven"), "s7", v) <==> v == Num(8);
    }
    assert !ReportsWith(After["one"], OtherStep(Some(Branch(Before)), "one"), Step(TestObj, "one"), "s7", v);
  }

  /** A `result` that starts empty ends up as `{s7: 8}`. */
  lemma ResultMoved(result: map<string, Value>)
    requires Utils.Extends(map[], result, Branch(After), Some(Branch(Before)), TestObj)
    ensures result == map["s7" := Num(8)]
  {
    ReportedMoved();
    ReportedValue(result["s7"]);
  }

  /**
   * The corrected walks on the input of the `diffShape` test: after
   * subscribing `Before` and diffing to `After`, the root and `three` hold
   * no listeners, the label kept at `one` keeps its listener, the dropped
   * terminal `three.four` keeps an empty node, the new terminal
   * `three.seven` gets its callback, and an empty `result` becomes
   * `{s7: 8}`, the data at the one new label.
   */
  lemma DiffShapeAsTested()
    ensures ListenersAt(Moved(), []) == {} && ListenersAt(Moved(), ["three"]) == {}
    ensures ListenersAt(Moved(), ["one"]) == {Two}
    ensures NodeAt(Moved(), ["three", "four"]).Some? && ListenersAt(Moved(), ["three", "four"]) == {}
    ensures NodeAt(Moved(), ["three", "four"]).value.listeners == Some({})
    ensures ListenersAt(Moved(), ["three", "seven"]) == {Seven}
    ensures Reported(Branch(After), Some(Branch(Before))) == {"s7"}
    ensures forall result :: Utils.Extends(map[], result, Branch(After), Some(Branch(Before)), TestObj) ==>
      result == map["s7" := Num(8)]
  {
    MovedRoot();
    MovedThree();
    MovedOne();
    MovedFour();
    MovedSeven();
    ReportedMoved();
    forall result | Utils.Extends(map[], result, Branch(After), Some(Branch(Before)), TestObj)
      ensures result == map["s7" := Num(8)]
    {
      ResultMoved(result);
    }
  }
}
