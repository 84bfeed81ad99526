/**
 `Object.assign(target, source)` with one source object, as used to compose
 the schema's field maps (src/schema/index.js) and to add the `Attributes`
 entry to the queue-creation parameters (src/schema/aws.js). For each own
 key of `source`, in enumeration order, it reads `source[key]` and writes it
 to `target[key]`; then it returns `target` itself. The copy is shallow:
 object values are shared, not cloned.
 */
module ObjectAssign {
  import opened JsObjects

  /** The copy loop over the source's key snapshot `ks`. */
  function AssignFold(t: ObjState, src: ObjState, ks: seq<string>): ObjState
    decreases |ks|
  {
    if ks == [] then t else AssignFold(Put(t, ks[0], Lookup(src.props, ks[0])), src, ks[1..])
  }

  /** One more key at the end of the snapshot is one more property write. */
  lemma {:induction false} AssignFoldSnoc(t: ObjState, src: ObjState, ks: seq<string>, k: string)
    ensures AssignFold(t, src, ks + [k]) == Put(AssignFold(t, src, ks), k, Lookup(src.props, k))
    decreases |ks|
  {
    if ks == [] {
      assert ([] + [k])[1..] == [];
    } else {
      assert (ks + [k])[1..] == ks[1..] + [k];
      AssignFoldSnoc(Put(t, ks[0], Lookup(src.props, ks[0])), src, ks[1..], k);
    }
  }

  /** Reference definition: a last-writer-wins union. Keys from `s` that `t`
      lacks are appended in `s`'s order; keys `t` already has keep their
      place. */
  function Merge(t: ObjState, s: ObjState): ObjState {
    ObjState(t.props + s.props, t.order + Without(s.order, t.props.Keys))
  }

  /** What the merge promises: the key set is the union; on a shared key the
      later (source) entry wins; a key only the target has keeps its entry;
      the target's keys stay first, in their order, and every other key
      follows in the source's order. */
  lemma MergeSpec(t: ObjState, s: ObjState)
    ensures Merge(t, s).props.Keys == t.props.Keys + s.props.Keys
    ensures forall k :: k in s.props ==> Merge(t, s).props[k] == s.props[k]
    ensures forall k :: k in t.props && k !in s.props ==> Merge(t, s).props[k] == t.props[k]
    ensures |Merge(t, s).order| >= |t.order| && Merge(t, s).order[..|t.order|] == t.order
    ensures forall k :: k in Merge(t, s).order[|t.order|..] <==> k in s.order && k !in t.props
    ensures IsSubsequence(Merge(t, s).order[|t.order|..], s.order)
  {
    WithoutMembers(s.order, t.props.Keys);
    WithoutSubsequence(s.order, t.props.Keys);
    assert Merge(t, s).order[|t.order|..] == Without(s.order, t.props.Keys);
  }

  /** The copy loop over snapshot keys that `src` has writes exactly those
      entries over `t`. */
  lemma {:induction false} AssignFoldProps(t: ObjState, src: ObjState, ks: seq<string>)
    requires forall k :: k in ks ==> k in src.props
    ensures forall k :: k in AssignFold(t, src, ks).props <==> k in t.props || k in ks
    ensures forall k :: k in AssignFold(t, src, ks).props ==>
      AssignFold(t, src, ks).props[k] == if k in ks then src.props[k] else t.props[k]
    decreases |ks|
  {
    if ks != [] {
      var k, rest := ks[0], ks[1..];
      var t1 := Put(t, k, src.props[k]);
      assert forall x :: x in ks <==> x == k || x in rest;
      assert AssignFold(t, src, ks) == AssignFold(t1, src, rest);
      AssignFoldProps(t1, src, rest);
    }
  }

  /** The same loop appends, in snapshot order, the keys `t` lacked. */
  lemma {:induction false} AssignFoldOrder(t: ObjState, src: ObjState, ks: seq<string>)
    requires Distinct(ks)
    ensures AssignFold(t, src, ks).order == t.order + Without(ks, t.props.Keys)
    decreases |ks|
  {
    if ks != [] {
      var k, rest := ks[0], ks[1..];
      var t1 := Put(t, k, Lookup(src.props, k));
      calc {
        AssignFold(t, src, ks).order;
        AssignFold(t1, src, rest).order;
        { AssignFoldOrder(t1, src, rest); assert t1.props.Keys == t.props.Keys + {k}; }
        t1.order + Without(rest, t.props.Keys + {k});
        { WithoutAbsent(rest, t.props.Keys, k); }
        t1.order + Without(rest, t.props.Keys);
        t.order + Without(ks, t.props.Keys);
      }
    }
  }

  /** The loop `Object.assign` runs computes the last-writer-wins union. */
  lemma AssignIsMerge(t: ObjState, s: ObjState)
    requires WellFormed(s)
    ensures AssignFold(t, s, s.order) == Merge(t, s)
  {
    AssignFoldProps(t, s, s.order);
    AssignFoldOrder(t, s, s.order);
    assert AssignFold(t, s, s.order).props == Merge(t, s).props;
  }

  /** The union of two well-formed objects is well-formed: every key is
      enumerated once. */
  lemma MergeWellFormed(t: ObjState, s: ObjState)
    requires WellFormed(t) && WellFormed(s)
    ensures WellFormed(Merge(t, s))
  {
    var extra := Without(s.order, t.props.Keys);
    WithoutMembers(s.order, t.props.Keys);
    WithoutDistinct(s.order, t.props.Keys);
    DistinctConcat(t.order, extra);
  }

  /** With no shared key, nothing is overwritten: the source's keys follow
      the target's, in the source's order. */
  lemma MergeDisjoint(t: ObjState, s: ObjState)
    requires WellFormed(s)
    requires t.props.Keys !! s.props.Keys
    ensures Merge(t, s).order == t.order + s.order
  {
    WithoutDisjoint(s.order, t.props.Keys);
  }

  /** When no key is shared, no target entry is overwritten. */
  lemma MergeKeepsTarget(t: ObjState, s: ObjState)
    requires t.props.Keys !! s.props.Keys
    ensures forall k :: k in t.props ==> k in Merge(t, s).props && Merge(t, s).props[k] == t.props[k]
  {
    forall k | k in t.props
      ensures k in Merge(t, s).props && Merge(t, s).props[k] == t.props[k]
    {
      assert k !in s.props;
    }
  }

  /** Assigning from a one-key object `{ k: v }` whose key the target lacks
      is the property write `target[k] = v`. */
  lemma AssignNewKey(t: ObjState, k: string, v: Value)
    requires k !in t.props
    ensures Merge(t, Put(ObjState(map[], []), k, v)) == Put(t, k, v)
  {
    var s := Put(ObjState(map[], []), k, v);
    assert s.order[1..] == [];
    assert Without(s.order, t.props.Keys) == [k];
    assert t.props + s.props == t.props[k := v];
  }

  /** `Object.assign(target, source)`: returns `target`, whose properties are
      now the union with `source`'s winning on a shared key; `source` is
      left as it was, even when it is `target` itself. */
  method Assign(target: JsObject, source: JsObject) returns (r: JsObject)
    requires target.Valid() && source.Valid()
    modifies target
    ensures r == target
    ensures target.Valid()
    ensures target.State() == Merge(old(target.State()), old(source.State()))
    ensures source.State() == old(source.State())
  {
    ghost var t0, s0 := target.State(), source.State();
    var ks := source.Keys();
    var i := 0;
    while i < |ks|
      invariant 0 <= i <= |ks|
      invariant target.Valid()
      invariant source.State() == s0
      invariant target.State() == AssignFold(t0, s0, ks[..i])
    {
      var key := ks[i];
      assert key in s0.props by {
        assert key in s0.order;
      }
      var v := source.Get(key);
      AssignFoldSnoc(t0, s0, ks[..i], key);
      assert ks[..i + 1] == ks[..i] + [key];
      if target == source {
        PutSame(s0, key);
      }
      target.Set(key, v);
      i := i + 1;
    }
    assert ks[..i] == s0.order;
    AssignIsMerge(t0, s0);
    return target;
  }
}
