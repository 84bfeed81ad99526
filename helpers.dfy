/**
 `removeUndefinedKeys(obj)` from src/utils/helpers.js: it takes a snapshot
 of the object's own keys with `Object.keys`, walks it with `forEach`, and
 deletes every key whose value is `undefined`. It returns `undefined`; its
 only effect is on its argument. `Object.keys` throws a `TypeError` when the
 argument is `undefined` or `null`.
 */
module Helpers {
  import opened JsObjects

  /** The own keys whose value is `undefined`. */
  function UndefinedKeys(m: map<string, Value>): set<string> {
    set k | k in m && m[k] == Undefined
  }

  /** Reference definition: the object with exactly its `undefined`-valued
      keys removed, the others in their original order. */
  function Cleaned(s: ObjState): ObjState {
    Drop(s, UndefinedKeys(s.props))
  }

  /** What cleaning promises: no remaining key maps to `undefined`; every
      other key keeps its exact value; no key is added, and the key set is
      the old one minus the `undefined`-valued keys; the key order keeps
      exactly the surviving keys, in their old relative order. */
  lemma CleanedSpec(s: ObjState)
    ensures forall k :: k in Cleaned(s).props ==> Cleaned(s).props[k] != Undefined
    ensures forall k :: k in s.props && s.props[k] != Undefined ==> k in Cleaned(s).props && Cleaned(s).props[k] == s.props[k]
    ensures Cleaned(s).props.Keys == s.props.Keys - UndefinedKeys(s.props)
    ensures forall k :: k in Cleaned(s).order <==> k in s.order && k !in UndefinedKeys(s.props)
    ensures IsSubsequence(Cleaned(s).order, s.order)
  {
    WithoutMembers(s.order, UndefinedKeys(s.props));
    WithoutSubsequence(s.order, UndefinedKeys(s.props));
  }

  /** One iteration of the `forEach` callback on `key`. */
  function Step(s: ObjState, key: string): ObjState {
    if Lookup(s.props, key) == Undefined then Drop(s, {key}) else s
  }

  /** The `forEach` over a key snapshot `ks`: each key of `ks` is examined
      once, in order, against the object as it is at that moment. */
  function Sweep(s: ObjState, ks: seq<string>): ObjState
    decreases |ks|
  {
    if ks == [] then s else Sweep(Step(s, ks[0]), ks[1..])
  }

  /** The keys of the snapshot `ks` that read as `undefined` in `m`. */
  function UndefinedIn(m: map<string, Value>, ks: seq<string>): set<string> {
    set k | k in ks && Lookup(m, k) == Undefined
  }

  /** Deleting during the walk never hides a key from it: sweeping any
      snapshot removes exactly the snapshot's keys that were `undefined`
      before the walk began, whatever the order and even with repeats. */
  lemma {:induction false} SweepRemovesUndefined(s: ObjState, ks: seq<string>)
    ensures Sweep(s, ks) == Drop(s, UndefinedIn(s.props, ks))
    decreases |ks|
  {
    if ks == [] {
      assert UndefinedIn(s.props, ks) == {};
      WithoutNothing(s.order);
    } else {
      var k, rest := ks[0], ks[1..];
      assert forall x :: x in ks <==> x == k || x in rest;
      SweepRemovesUndefined(Step(s, k), rest);
      if Lookup(s.props, k) == Undefined {
        var s1 := Drop(s, {k});
        assert UndefinedIn(s.props, ks) == {k} + UndefinedIn(s1.props, rest);
        DropDrop(s, {k}, UndefinedIn(s1.props, rest));
      } else {
        assert UndefinedIn(s.props, ks) == UndefinedIn(s.props, rest);
      }
    }
  }

  /** Sweeping the object's own key snapshot yields the reference result. */
  lemma SweepSnapshot(s: ObjState)
    requires WellFormed(s)
    ensures Sweep(s, s.order) == Cleaned(s)
    ensures WellFormed(Cleaned(s))
  {
    SweepRemovesUndefined(s, s.order);
    assert UndefinedIn(s.props, s.order) == UndefinedKeys(s.props) by {
      forall k ensures k in UndefinedIn(s.props, s.order) <==> k in UndefinedKeys(s.props) {
        assert k in s.order <==> k in s.props;
      }
    }
    DropWellFormed(s, UndefinedKeys(s.props));
  }

  /** Running the helper a second time on its result changes nothing. */
  lemma CleanedIdempotent(s: ObjState)
    ensures Cleaned(Cleaned(s)) == Cleaned(s)
  {
    var c := Cleaned(s);
    assert UndefinedKeys(c.props) == {};
    WithoutNothing(c.order);
  }

  /** Only `undefined` triggers removal: `null`, `""` and `"0"` survive. */
  lemma FalsyValuesSurvive()
    ensures Cleaned(ObjState(map["a" := Null, "b" := Str(""), "c" := Str("0"), "d" := Undefined], ["a", "b", "c", "d"]))
         == ObjState(map["a" := Null, "b" := Str(""), "c" := Str("0")], ["a", "b", "c"])
  {
    var m := map["a" := Null, "b" := Str(""), "c" := Str("0"), "d" := Undefined];
    assert UndefinedKeys(m) == {"d"} by {
      forall k | k in m && m[k] == Undefined ensures k == "d" {
        assert k == "a" || k == "b" || k == "c" || k == "d";
      }
    }
    var order: seq<string> := ["a", "b", "c", "d"];
    assert Without(order[3..], {"d"}) == [];
    assert Without(order[2..], {"d"}) == ["c"];
    assert Without(order[1..], {"d"}) == ["b", "c"];
    assert Without(order, {"d"}) == ["a", "b", "c"];
    assert m - {"d"} == map["a" := Null, "b" := Str(""), "c" := Str("0")];
  }

  /** `removeUndefinedKeys(arg)`. The result is always `undefined` when the
      call returns, and a `TypeError` is thrown exactly when `arg` is
      `undefined` or `null`. On an object, the properties afterwards are the
      reference result of the properties before. On any other primitive,
      `Object.keys` enumerates its wrapper, nothing reads as `undefined`, and
      nothing changes. */
  method RemoveUndefinedKeys(arg: Value) returns (c: Completion)
    requires arg.Obj? ==> arg.o.Valid()
    modifies if arg.Obj? then {arg.o} else {}
    ensures c == Throw(TypeError) <==> arg == Undefined || arg == Null
    ensures c.Normal? ==> c.value == Undefined
    ensures arg.Obj? ==> arg.o.Valid() && arg.o.State() == Cleaned(old(arg.o.State()))
  {
    if arg == Undefined || arg == Null {
      return Throw(TypeError);
    }
    if !arg.Obj? {
      return Normal(Undefined);
    }
    var obj := arg.o;
    ghost var s0 := obj.State();
    var ks := obj.Keys();
    var i := 0;
    while i < |ks|
      invariant 0 <= i <= |ks|
      invariant obj.Valid()
      invariant Sweep(obj.State(), ks[i..]) == Sweep(s0, ks)
    {
      var key := ks[i];
      assert ks[i..] == [key] + ks[i + 1..];
      if obj.Get(key) == Undefined {
        obj.Delete(key);
      }
      i := i + 1;
    }
    SweepSnapshot(s0);
    return Normal(Undefined);
  }
}
