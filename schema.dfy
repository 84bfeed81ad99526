/**
 Schema composition from src/schema/index.js. Each resource module (sns,
 sqs) exports a `queries` object and a `mutations` object mapping field
 names to field descriptors. The root maps are built with two independent
 `Object.assign` calls that copy the sqs fields into the sns objects. The
 `GraphQLSchema` and `GraphQLObjectType` wrappers are not modelled; field
 descriptors are opaque object references.
 */
module Schema {
  import opened JsObjects
  import opened ObjectAssign

  /** What a resource module exports. */
  datatype ResourceModule = ResourceModule(queries: JsObject, mutations: JsObject)

  /** The four exported maps are four distinct object literals. */
  predicate Separate(sns: ResourceModule, sqs: ResourceModule) {
    && sns.queries != sns.mutations && sns.queries != sqs.queries && sns.queries != sqs.mutations
    && sns.mutations != sqs.queries && sns.mutations != sqs.mutations
    && sqs.queries != sqs.mutations
  }

  /** `const queries = Object.assign(snsSchema.queries, sqsSchema.queries)`
      and likewise for `mutations`. Both results are the sns objects, now
      holding the union with sqs fields winning on a shared name; each merge
      depends only on its own two inputs; the sqs objects are untouched. */
  method Compose(sns: ResourceModule, sqs: ResourceModule) returns (queries: JsObject, mutations: JsObject)
    requires Separate(sns, sqs)
    requires sns.queries.Valid() && sns.mutations.Valid() && sqs.queries.Valid() && sqs.mutations.Valid()
    modifies sns.queries, sns.mutations
    ensures queries == sns.queries && mutations == sns.mutations
    ensures queries.Valid() && mutations.Valid()
    ensures queries.State() == Merge(old(sns.queries.State()), old(sqs.queries.State()))
    ensures mutations.State() == Merge(old(sns.mutations.State()), old(sqs.mutations.State()))
    ensures unchanged(sqs.queries, sqs.mutations)
  {
    queries := Assign(sns.queries, sqs.queries);
    mutations := Assign(sns.mutations, sqs.mutations);
  }

  /** A fresh well-formed object holding the given fields, each bound to a
      fresh opaque descriptor, in the given order. */
  method FieldMap(names: seq<string>) returns (m: JsObject)
    requires Distinct(names)
    ensures fresh(m) && m.Valid()
    ensures m.order == names
    ensures forall k :: k in m.props <==> k in names
    ensures forall k :: k in m.props ==> m.props[k].Obj? && fresh(m.props[k].o)
  {
    m := new JsObject();
    var i := 0;
    while i < |names|
      invariant 0 <= i <= |names|
      invariant fresh(m) && m.Valid()
      invariant m.order == names[..i]
      invariant forall k :: k in m.props <==> k in names[..i]
      invariant forall k :: k in m.props ==> m.props[k].Obj? && fresh(m.props[k].o)
    {
      var descriptor := new JsObject();
      DistinctPrefix(names, i);
      m.Set(names[i], Obj(descriptor));
      assert names[..i + 1] == names[..i] + [names[i]];
      i := i + 1;
    }
    assert names[..i] == names;
  }

  /** The fields src/schema/sns/index.js exports. */
  method SnsModule() returns (m: ResourceModule)
    ensures fresh(m.queries) && fresh(m.mutations) && m.queries != m.mutations
    ensures m.queries.Valid() && m.mutations.Valid()
    ensures m.queries.order == ["topics"]
    ensures m.mutations.order == ["createTopic"]
  {
    var q := FieldMap(["topics"]);
    var mu := FieldMap(["createTopic"]);
    m := ResourceModule(q, mu);
  }

  /** The fields src/schema/sqs/index.js exports. */
  method SqsModule() returns (m: ResourceModule)
    ensures fresh(m.queries) && fresh(m.mutations) && m.queries != m.mutations
    ensures m.queries.Valid() && m.mutations.Valid()
    ensures m.queries.order == ["queues"]
    ensures m.mutations.order == ["deleteQueue", "createQueue"]
  {
    var q := FieldMap(["queues"]);
    var mu := FieldMap(["deleteQueue", "createQueue"]);
    m := ResourceModule(q, mu);
  }

  /** The two resource modules, loaded side by side: four distinct
      well-formed field maps. */
  method ExportedModules() returns (sns: ResourceModule, sqs: ResourceModule)
    ensures fresh(sns.queries) && fresh(sns.mutations) && fresh(sqs.queries) && fresh(sqs.mutations)
    ensures Separate(sns, sqs)
    ensures sns.queries.Valid() && sns.mutations.Valid() && sqs.queries.Valid() && sqs.mutations.Valid()
    ensures sns.queries.order == ["topics"] && sns.mutations.order == ["createTopic"]
    ensures sqs.queries.order == ["queues"] && sqs.mutations.order == ["deleteQueue", "createQueue"]
  {
    sqs := SqsModule();
    sns := SnsModule();
  }

  /** Merging two field maps with the given disjoint field lists. */
  lemma ShippedMerge(t: ObjState, s: ObjState, tf: seq<string>, sf: seq<string>)
    requires WellFormed(t) && WellFormed(s)
    requires t.order == tf && s.order == sf
    requires forall k :: k in sf ==> k !in tf
    ensures t.props.Keys !! s.props.Keys
    ensures Merge(t, s).order == tf + sf
    ensures WellFormed(Merge(t, s))
  {
    assert t.props.Keys !! s.props.Keys by {
      forall k | k in s.props ensures k !in t.props {
        assert k in sf;
      }
    }
    MergeDisjoint(t, s);
    MergeWellFormed(t, s);
  }

  /** The shipped query maps share no name: the root queries are `topics`
      and then `queues`, each once. */
  lemma RootQueries(sq: ObjState, qq: ObjState)
    requires WellFormed(sq) && WellFormed(qq)
    requires sq.order == ["topics"] && qq.order == ["queues"]
    ensures sq.props.Keys !! qq.props.Keys
    ensures WellFormed(Merge(sq, qq))
    ensures Merge(sq, qq).order == ["topics", "queues"]
  {
    ShippedMerge(sq, qq, ["topics"], ["queues"]);
    assert ["topics"] + ["queues"] == ["topics", "queues"];
  }

  /** The shipped mutation maps share no name: the root mutations are
      `createTopic`, then `deleteQueue` and `createQueue`, each once. */
  lemma RootMutations(sm: ObjState, qm: ObjState)
    requires WellFormed(sm) && WellFormed(qm)
    requires sm.order == ["createTopic"] && qm.order == ["deleteQueue", "createQueue"]
    ensures sm.props.Keys !! qm.props.Keys
    ensures WellFormed(Merge(sm, qm))
    ensures Merge(sm, qm).order == ["createTopic", "deleteQueue", "createQueue"]
  {
    ShippedMerge(sm, qm, ["createTopic"], ["deleteQueue", "createQueue"]);
    assert ["createTopic"] + ["deleteQueue", "createQueue"] == ["createTopic", "deleteQueue", "createQueue"];
  }

  /** The root maps of the shipped schema, and the sqs module they were
      merged from. The ghost results are the four exported module maps as
      they were before the merge, each well-formed; the sqs ones are still
      the states of the sqs module's objects. No sns field name is an sqs
      one, so nothing is overwritten (`MergeKeepsTarget`); the root maps are
      the unions, with the sqs fields following the sns ones; since both maps
      are well-formed, these lists are also exactly their key sets. */
  method BuildSchema() returns (queries: JsObject, mutations: JsObject, sqs: ResourceModule,
                                ghost sq: ObjState, ghost qq: ObjState, ghost sm: ObjState, ghost qm: ObjState)
    ensures queries != mutations
    ensures WellFormed(sq) && WellFormed(qq) && WellFormed(sm) && WellFormed(qm)
    ensures sqs.queries.State() == qq && sqs.mutations.State() == qm
    ensures queries.Valid() && mutations.Valid()
    ensures sq.order == ["topics"] && qq.order == ["queues"]
    ensures sm.order == ["createTopic"] && qm.order == ["deleteQueue", "createQueue"]
    ensures sq.props.Keys !! qq.props.Keys && sm.props.Keys !! qm.props.Keys
    ensures queries.State() == Merge(sq, qq) && mutations.State() == Merge(sm, qm)
    ensures queries.order == ["topics", "queues"]
    ensures mutations.order == ["createTopic", "deleteQueue", "createQueue"]
  {
    var sns;
    sns, sqs := ExportedModules();
    sq, sm := sns.queries.State(), sns.mutations.State();
    qq, qm := sqs.queries.State(), sqs.mutations.State();
    RootQueries(sq, qq);
    RootMutations(sm, qm);
    queries, mutations := Compose(sns, sqs);
  }
}
