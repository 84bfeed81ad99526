/**
 The two callers of `removeUndefinedKeys`: the parameter objects that the
 `createQueue` resolvers build before calling the queue service (the call
 itself is not modelled). Both use the helper's return value, which is always
 `undefined`, as the `Attributes` payload; only the one in src/schema/aws.js
 guards against a missing argument. `CreateQueueParams` is the evidently
 intended behaviour: clean the argument in place and forward it.
 */
module CreateQueue {
  import opened JsObjects
  import opened ObjectAssign
  import opened Helpers

  /** The parameter object `{ QueueName: name }`. */
  function NameOnly(queueName: string): ObjState {
    Put(ObjState(map[], []), "QueueName", Str(queueName))
  }

  /** The parameter object `{ QueueName: name, Attributes: v }`. */
  function WithAttributes(queueName: string, v: Value): ObjState {
    Put(NameOnly(queueName), "Attributes", v)
  }

  /** src/schema/sqs/index.js, as written:
      `{ QueueName: QueueName, Attributes: helpers.removeUndefinedKeys(Attributes) }`.
      An omitted (`undefined`) or `null` argument throws; any other argument
      is cleaned in place and then dropped, since `Attributes` is always
      `undefined` in the payload. */
  method SqsCreateQueueParams(queueName: string, attributes: Value) returns (c: Completion)
    requires attributes.Obj? ==> attributes.o.Valid()
    modifies if attributes.Obj? then {attributes.o} else {}
    ensures c == Throw(TypeError) <==> attributes == Undefined || attributes == Null
    ensures c.Normal? ==> c.value.Obj? && fresh(c.value.o) && c.value.o.Valid()
    ensures c.Normal? ==> c.value.o.State() == WithAttributes(queueName, Undefined)
    ensures attributes.Obj? ==> attributes.o.Valid() && attributes.o.State() == Cleaned(old(attributes.o.State()))
  {
    var cleaned := RemoveUndefinedKeys(attributes);
    if cleaned.Throw? {
      return cleaned;
    }
    var params := new JsObject();
    params.Set("QueueName", Str(queueName));
    params.Set("Attributes", cleaned.value);
    return Normal(Obj(params));
  }

  /** src/schema/aws.js, as written: `params = { QueueName }`, then, if the
      argument is truthy, `Object.assign(params, { Attributes:
      helpers.removeUndefinedKeys(Attributes) })`. It never throws, but a
      supplied argument still arrives as an `Attributes` key bound to
      `undefined`. */
  method AwsCreateQueueParams(queueName: string, attributes: Value) returns (c: Completion)
    requires attributes.Obj? ==> attributes.o.Valid()
    modifies if attributes.Obj? then {attributes.o} else {}
    ensures c.Normal? && c.value.Obj? && fresh(c.value.o) && c.value.o.Valid()
    ensures Truthy(attributes) ==> c.value.o.State() == WithAttributes(queueName, Undefined)
    ensures !Truthy(attributes) ==> c.value.o.State() == NameOnly(queueName)
    ensures attributes.Obj? ==> attributes.o.Valid() && attributes.o.State() == Cleaned(old(attributes.o.State()))
  {
    var params := new JsObject();
    params.Set("QueueName", Str(queueName));
    if Truthy(attributes) {
      var cleaned := RemoveUndefinedKeys(attributes);
      assert params.State() == NameOnly(queueName);
      var extra := new JsObject();
      extra.Set("Attributes", cleaned.value);
      ghost var e := extra.State();
      assert e == Put(ObjState(map[], []), "Attributes", Undefined);
      AssignNewKey(NameOnly(queueName), "Attributes", Undefined);
      var _ := Assign(params, extra);
    }
    return Normal(Obj(params));
  }

  /** Corrected: when the argument is truthy, clean it in place and forward
      that same object, so the payload's `Attributes` holds exactly the
      supplied attributes that were not `undefined`. */
  method CreateQueueParams(queueName: string, attributes: Value) returns (c: Completion)
    requires attributes.Obj? ==> attributes.o.Valid()
    modifies if attributes.Obj? then {attributes.o} else {}
    ensures c.Normal? && c.value.Obj? && fresh(c.value.o) && c.value.o.Valid()
    ensures Truthy(attributes) ==> c.value.o.State() == WithAttributes(queueName, attributes)
    ensures !Truthy(attributes) ==> c.value.o.State() == NameOnly(queueName)
    ensures attributes.Obj? ==> attributes.o.Valid() && attributes.o.State() == Cleaned(old(attributes.o.State()))
  {
    var params := new JsObject();
    params.Set("QueueName", Str(queueName));
    if Truthy(attributes) {
      var _ := RemoveUndefinedKeys(attributes);
      params.Set("Attributes", attributes);
    }
    return Normal(Obj(params));
  }

  /** The attributes `{ DelaySeconds: "5", VisibilityTimeout: undefined }`. */
  function DelayAttributes(): ObjState {
    Put(Put(ObjState(map[], []), "DelaySeconds", Str("5")), "VisibilityTimeout", Undefined)
  }

  lemma DelayAttributesCleaned()
    ensures Cleaned(DelayAttributes()) == ObjState(map["DelaySeconds" := Str("5")], ["DelaySeconds"])
  {
    var m := DelayAttributes().props;
    assert UndefinedKeys(m) == {"VisibilityTimeout"} by {
      forall k | k in m && m[k] == Undefined ensures k == "VisibilityTimeout" {
        assert k == "DelaySeconds" || k == "VisibilityTimeout";
      }
    }
    var order := DelayAttributes().order;
    assert Without(order[1..], {"VisibilityTimeout"}) == [];
    assert Without(order, {"VisibilityTimeout"}) == ["DelaySeconds"];
    assert m - {"VisibilityTimeout"} == map["DelaySeconds" := Str("5")];
  }

  /** A fresh object holding `DelayAttributes()`. */
  method NewDelayAttributes() returns (a: JsObject)
    ensures fresh(a) && a.Valid() && a.State() == DelayAttributes()
  {
    a := new JsObject();
    a.Set("DelaySeconds", Str("5"));
    a.Set("VisibilityTimeout", Undefined);
  }

  /** `createQueue(QueueName: "orders", Attributes: { DelaySeconds: "5",
      VisibilityTimeout: undefined })`: the resolver as written sends
      `Attributes: undefined`, so the delay is lost. */
  method DelayLostAsWritten() returns (sent: Value)
    ensures sent == Undefined
  {
    var attributes := NewDelayAttributes();
    var c := SqsCreateQueueParams("orders", Obj(attributes));
    sent := c.value.o.Get("Attributes");
  }

  /** The same call with the corrected resolver sends `{ DelaySeconds: "5" }`. */
  method DelayKeptCorrected() returns (sent: ObjState)
    ensures sent == ObjState(map["DelaySeconds" := Str("5")], ["DelaySeconds"])
  {
    var attributes := NewDelayAttributes();
    DelayAttributesCleaned();
    var c := CreateQueueParams("orders", Obj(attributes));
    assert attributes.State() == Cleaned(DelayAttributes());
    var params := c.value.o;
    assert params.props == WithAttributes("orders", Obj(attributes)).props;
    var payload := params.Get("Attributes");
    assert payload == Obj(attributes);
    sent := payload.o.State();
  }

  /** `createQueue(QueueName: "orders")` with no `Attributes` argument: the
      resolver as written throws a `TypeError` from `Object.keys(undefined)`;
      the corrected one sends `{ QueueName: "orders" }`. */
  method OmittedAttributesExample() returns (asWritten: Completion, corrected: ObjState)
    ensures asWritten == Throw(TypeError)
    ensures corrected == ObjState(map["QueueName" := Str("orders")], ["QueueName"])
  {
    assert NameOnly("orders") == ObjState(map["QueueName" := Str("orders")], ["QueueName"]);
    asWritten := SqsCreateQueueParams("orders", Undefined);
    var sent := CreateQueueParams("orders", Undefined);
    corrected := sent.value.o.State();
  }
}
