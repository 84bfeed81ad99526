/**
 A model of the small part of JavaScript's object semantics that the
 gateway's helpers and schema composition rely on: values (with `undefined`
 distinct from `null`), plain objects as ordered dictionaries of own
 properties, and the three primitive operations on them: `Object.keys`,
 property read `obj[key]` and `delete obj[key]`, plus property assignment.
 */
module JsObjects {

  /** A JavaScript value. `Undefined` and `Null` are distinct, as in the
      language; `Obj` is a reference to a (mutable) object. */
  datatype Value =
    | Undefined
    | Null
    | Bool(b: bool)
    | Num(n: int)
    | Str(s: string)
    | Obj(o: JsObject)

  /** The error a built-in raises; only `TypeError` occurs in this model. */
  datatype ErrorKind = TypeError

  /** How a call ends: it returns a value or it throws. */
  datatype Completion = Normal(value: Value) | Throw(error: ErrorKind)

  /** JavaScript truthiness (`if (v)`). `NaN` is not modelled. */
  predicate Truthy(v: Value) {
    match v
    case Undefined => false
    case Null => false
    case Bool(b) => b
    case Num(n) => n != 0
    case Str(s) => s != ""
    case Obj(_) => true
  }

  /** The own properties of an object: their values, and the order in which
      `Object.keys` enumerates them (insertion order). */
  datatype ObjState = ObjState(props: map<string, Value>, order: seq<string>)

  /** No key occurs twice. */
  ghost predicate Distinct(s: seq<string>)
    decreases |s|
  {
    s == [] || (s[0] !in s[1..] && Distinct(s[1..]))
  }

  /** Each own key is enumerated exactly once. */
  ghost predicate WellFormed(s: ObjState) {
    Distinct(s.order) && forall k :: k in s.order <==> k in s.props
  }

  /** `obj[key]` on an own key gives its value; on a missing key, `undefined`. */
  function Lookup(m: map<string, Value>, k: string): Value {
    if k in m then m[k] else Undefined
  }

  /** `a` is `b` with some elements left out: the elements of `a` occur in
      `b` in the same relative order. */
  ghost predicate IsSubsequence(a: seq<string>, b: seq<string>)
    decreases |b|
  {
    if b == [] then a == []
    else (a != [] && a[0] == b[0] && IsSubsequence(a[1..], b[1..])) || IsSubsequence(a, b[1..])
  }

  /** The keys of `s` that are not in `d`, in their original order. */
  function Without(s: seq<string>, d: set<string>): seq<string>
    decreases |s|
  {
    if s == [] then []
    else if s[0] in d then Without(s[1..], d)
    else [s[0]] + Without(s[1..], d)
  }

  lemma {:induction false} WithoutMembers(s: seq<string>, d: set<string>)
    ensures forall k :: k in Without(s, d) <==> k in s && k !in d
    decreases |s|
  {
    if s != [] {
      WithoutMembers(s[1..], d);
      assert s == [s[0]] + s[1..];
    }
  }

  /** Filtering only leaves keys out; it never reorders them. */
  lemma {:induction false} WithoutSubsequence(s: seq<string>, d: set<string>)
    ensures IsSubsequence(Without(s, d), s)
    decreases |s|
  {
    if s != [] {
      WithoutSubsequence(s[1..], d);
      if s[0] !in d {
        assert Without(s, d) == [s[0]] + Without(s[1..], d);
        assert Without(s, d)[1..] == Without(s[1..], d);
      }
    }
  }

  lemma {:induction false} WithoutDistinct(s: seq<string>, d: set<string>)
    requires Distinct(s)
    ensures Distinct(Without(s, d))
    decreases |s|
  {
    if s != [] {
      WithoutDistinct(s[1..], d);
      WithoutMembers(s[1..], d);
    }
  }

  /** Filtering by the empty set keeps everything. */
  lemma {:induction false} WithoutNothing(s: seq<string>)
    ensures Without(s, {}) == s
    decreases |s|
  {
    if s != [] {
      WithoutNothing(s[1..]);
    }
  }

  /** Filtering twice is filtering once by both sets. */
  lemma {:induction false} WithoutWithout(s: seq<string>, a: set<string>, b: set<string>)
    ensures Without(Without(s, a), b) == Without(s, a + b)
    decreases |s|
  {
    if s != [] {
      WithoutWithout(s[1..], a, b);
    }
  }

  /** Removing a key that does not occur changes nothing. */
  lemma {:induction false} WithoutAbsent(s: seq<string>, d: set<string>, k: string)
    requires k !in s
    ensures Without(s, d + {k}) == Without(s, d)
    decreases |s|
  {
    if s != [] {
      WithoutAbsent(s[1..], d, k);
    }
  }

  /** Filtering by a set that no key of `s` is in keeps everything. */
  lemma {:induction false} WithoutDisjoint(s: seq<string>, d: set<string>)
    requires forall k :: k in s ==> k !in d
    ensures Without(s, d) == s
    decreases |s|
  {
    if s != [] {
      assert s[0] in s;
      forall k | k in s[1..] ensures k !in d {
        assert k in s;
      }
      WithoutDisjoint(s[1..], d);
    }
  }

  lemma {:induction false} DistinctConcat(a: seq<string>, b: seq<string>)
    requires Distinct(a) && Distinct(b)
    requires forall k :: k in b ==> k !in a
    ensures Distinct(a + b)
    decreases |a|
  {
    if a == [] {
      assert a + b == b;
    } else {
      assert (a + b)[1..] == a[1..] + b;
      assert a[0] in a;
      forall k | k in b ensures k !in a[1..] {
        assert k !in a;
      }
      DistinctConcat(a[1..], b);
    }
  }

  /** In a duplicate-free list, no key occurs before its own position. */
  lemma {:induction false} DistinctPrefix(s: seq<string>, i: nat)
    requires Distinct(s) && i < |s|
    ensures s[i] !in s[..i]
    decreases i
  {
    if i > 0 {
      DistinctPrefix(s[1..], i - 1);
      assert s[..i] == [s[0]] + s[1..][..i - 1];
      assert s[i] == s[1..][i - 1];
      assert s[i] in s[1..];
    }
  }

  /** The state after deleting every key in `d`. */
  function Drop(s: ObjState, d: set<string>): ObjState {
    ObjState(s.props - d, Without(s.order, d))
  }

  lemma DropWellFormed(s: ObjState, d: set<string>)
    requires WellFormed(s)
    ensures WellFormed(Drop(s, d))
  {
    WithoutDistinct(s.order, d);
    WithoutMembers(s.order, d);
  }

  lemma DropDrop(s: ObjState, a: set<string>, b: set<string>)
    ensures Drop(Drop(s, a), b) == Drop(s, a + b)
  {
    WithoutWithout(s.order, a, b);
  }

  /** `obj[key] = v`: an existing key keeps its place, a new one is appended. */
  function Put(s: ObjState, k: string, v: Value): ObjState {
    ObjState(s.props[k := v], if k in s.props then s.order else s.order + [k])
  }

  lemma PutWellFormed(s: ObjState, k: string, v: Value)
    requires WellFormed(s)
    ensures WellFormed(Put(s, k, v))
  {
    var r := Put(s, k, v);
    if k !in s.props {
      DistinctConcat(s.order, [k]);
    }
  }

  /** Writing back the value a key already has is a no-op. */
  lemma PutSame(s: ObjState, k: string)
    requires k in s.props
    ensures Put(s, k, s.props[k]) == s
  {
  }

  /** A plain JavaScript object. Its own properties are `props`, enumerated
      by `Object.keys` in the order `order`. */
  class JsObject {
    var props: map<string, Value>
    var order: seq<string>

    ghost predicate Valid()
      reads this
    {
      WellFormed(State())
    }

    function State(): ObjState
      reads this
    {
      ObjState(props, order)
    }

    /** `{}` */
    constructor ()
      ensures Valid() && State() == ObjState(map[], [])
    {
      props := map[];
      order := [];
    }

    /** `Object.keys(obj)`: a fresh array of the own keys, a snapshot that
        later deletions do not affect. */
    function Keys(): seq<string>
      reads this
    {
      order
    }

    /** `obj[key]` */
    function Get(k: string): Value
      reads this
    {
      Lookup(props, k)
    }

    /** `obj[key] = v` */
    method Set(k: string, v: Value)
      requires Valid()
      modifies this
      ensures Valid()
      ensures State() == Put(old(State()), k, v)
    {
      PutWellFormed(State(), k, v);
      if k !in props {
        order := order + [k];
      }
      props := props[k := v];
    }

    /** `delete obj[key]`: removes the own property if present; deleting a
        missing key succeeds and changes nothing. */
    method Delete(k: string)
      requires Valid()
      modifies this
      ensures Valid()
      ensures State() == Drop(old(State()), {k})
    {
      DropWellFormed(State(), {k});
      order := Without(order, {k});
      props := props - {k};
    }
  }
}
