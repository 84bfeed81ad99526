# graphql-aws: key cleaning and schema composition

This project is a Dafny model of the two pieces of the graphql-aws gateway
that do something locally. Everything else in the gateway passes its
arguments straight on to the Amazon queue (SQS) and topic (SNS) services.

- **`removeUndefinedKeys(obj)`** (src/utils/helpers.js). It takes a snapshot
  of the argument's own keys with `Object.keys`. It walks that snapshot with
  `forEach` and deletes every key whose value is `undefined`. It returns
  `undefined`. The two `createQueue` resolvers (src/schema/sqs/index.js,
  src/schema/aws.js) call it before they build their service parameters.
- **Schema composition** (src/schema/index.js). Two calls to
  `Object.assign(target, source)` copy the sqs module's `queries` and
  `mutations` field maps into the sns module's objects. The merged sns
  objects are the root fields of the schema.

JavaScript objects change in place, so the model does too.

- `JsObjects.JsObject` is a class with two fields:
  - `props`: a `map<string, Value>`;
  - `order`: a `seq<string>`, the order in which `Object.keys` lists the keys.
- `Value` has `Undefined` and `Null` as separate constructors, plus booleans,
  integers, strings and object references.
- `Object.keys`, reading `obj[key]`, `delete obj[key]` and writing
  `obj[key] = v` are the members `Keys`, `Get`, `Delete` and `Set`.
- `JsObjects.Lookup` is the read `obj[key]` on a state
  (src/utils/helpers.js:3). It gives the own value of a present key and
  `Undefined` for a missing one; `Get` and the `Object.assign` loop use it.
- `JsObjects.Truthy` is JavaScript truthiness, the test `if (Attributes)`
  at src/schema/aws.js:135. `undefined`, `null`, `false`, `0` and `""` are
  falsy; every object is truthy.
- `Schema.FieldMap` builds a field-map object literal such as
  `{ topics: {...} }` (src/schema/sns/index.js, src/schema/sqs/index.js).
  It binds each field name, in order, to a fresh opaque descriptor.
  `Schema.SnsModule` and `Schema.SqsModule` use it for the exported
  `queries` and `mutations` objects.

Each looping method is proved against a pure function that mirrors its loop:

- `Helpers.Sweep` mirrors the `forEach` over the key snapshot;
- `ObjectAssign.AssignFold` mirrors the copy loop inside `Object.assign`.

Lemmas then prove that each loop function equals a declarative reference:

- `Helpers.Cleaned` (its properties are `Helpers.CleanedSpec`): keep exactly the keys whose value is not `undefined`;
- `ObjectAssign.Merge` (its properties are `ObjectAssign.MergeSpec`): union of the two maps, the later map winning.

The properties the program relies on are proved about those references.

A precondition `Valid()` appears on every object argument. It says only that
the model's `order` lists each own key of `props` exactly once. It is not a
demand the source makes on its callers.

## Model

| member | source | states |
|---|---|---|
| `JsObjects.JsObject.Delete` | src/utils/helpers.js:4 | `delete obj[key]` removes that key from both the properties and the key order; a missing key changes nothing; the object stays well-formed |
| `JsObjects.JsObject.Set` | src/schema/index.js:5-8 | a property write replaces an existing key's value in place, or adds a new key at the end of the key order |
| `Helpers.RemoveUndefinedKeys` | src/utils/helpers.js:1-7 | throws `TypeError` exactly when the argument is `undefined` or `null`; otherwise returns `undefined`; on an object, the new properties are `Cleaned` of the old ones |
| `Helpers.CleanedSpec` | src/utils/helpers.js:2-6 | no remaining key maps to `undefined`; every other key keeps its exact value; the key set is the old set minus the `undefined`-valued keys; no key is added; the key order keeps exactly the surviving keys, in their old relative order |
| `Helpers.SweepRemovesUndefined` | src/utils/helpers.js:2-6 | walking any key snapshot deletes exactly the snapshot keys whose value was `undefined` before the walk; deleting during the walk never skips a key, even with repeated keys |
| `Helpers.SweepSnapshot` | src/utils/helpers.js:2-6 | walking the object's own `Object.keys` snapshot gives the reference result `Cleaned`, and that result is well-formed |
| `Helpers.CleanedIdempotent` | src/utils/helpers.js:2-6 | cleaning a second time changes nothing |
| `Helpers.FalsyValuesSurvive` | src/utils/helpers.js:3-5 | only `undefined` triggers removal: `null`, `""` and `"0"` survive with their values and order |
| `ObjectAssign.Assign` | src/schema/index.js:5-12 | `Object.assign` returns its target; the target's new properties are `Merge` of target and source; the source is unchanged, even when it is the target itself |
| `ObjectAssign.MergeSpec` | src/schema/index.js:5-12 | merged keys are the union of both key sets; on a shared key the source (sqs) entry wins; keys only in the target keep their entry; the target's keys keep their order at the front; the keys after them are exactly the source keys the target lacked, in the source's relative order |
| `ObjectAssign.AssignFoldProps` | src/schema/index.js:5-8 | the copy loop over the source's keys writes exactly the source's entries over the target's |
| `ObjectAssign.AssignFoldOrder` | src/schema/index.js:5-8 | the copy loop appends the keys the target lacked, in the source's order; keys already present keep their position |
| `ObjectAssign.AssignFoldSnoc` | src/schema/index.js:5-8 | copying one more snapshot key is one more property write of the source's value, appended to the loop's previous result |
| `ObjectAssign.AssignIsMerge` | src/schema/index.js:5-12 | the copy loop that `Object.assign` runs computes exactly the union `Merge` |
| `ObjectAssign.MergeWellFormed` | src/schema/index.js:5-12 | after merging two well-formed objects, each key is still listed exactly once |
| `ObjectAssign.MergeDisjoint` | src/schema/index.js:5-12 | when no field name is shared, the merged key order is the sns keys followed by the sqs keys |
| `ObjectAssign.AssignNewKey` | src/schema/aws.js:136 | `Object.assign(params, { k: v })` with a key `params` lacks equals the single write `params[k] = v` |
| `ObjectAssign.MergeKeepsTarget` | src/schema/index.js:5-12 | when the two key sets are disjoint, every target (sns) entry survives the merge with its own value |
| `Schema.Compose` | src/schema/index.js:5-12 | `queries` and `mutations` are the sns objects themselves; each merged map is the union of its own two inputs only, so the two merges are independent; the sqs objects are unchanged |
| `Schema.SnsModule` | src/schema/sns/index.js:25-55 | the sns module exports the query `topics` and the mutation `createTopic` |
| `Schema.SqsModule` | src/schema/sqs/index.js:92-151 | the sqs module exports the query `queues` and the mutations `deleteQueue` and `createQueue`, in that order |
| `Schema.ExportedModules` | src/schema/index.js:2-3 | importing the sqs module and then the sns module gives four fresh, distinct, well-formed field maps with the shipped key orders `[queues]`, `[deleteQueue, createQueue]`, `[topics]`, `[createTopic]` |
| `Schema.RootQueries` | src/schema/index.js:5-8 | given the shipped query lists, the sns and sqs query maps share no key, and the merged root queries list `topics` and then `queues`, each once |
| `Schema.RootMutations` | src/schema/index.js:9-12 | given the shipped mutation lists, the sns and sqs mutation maps share no key, and the merged root mutations list `createTopic`, `deleteQueue`, `createQueue`, each once |
| `Schema.BuildSchema` | src/schema/index.js:2-12 | also returns the sqs module and, as ghost results, the four exported module maps as they were before the merge; all four are well-formed and the sqs ones are the states of the returned sqs objects; the sns and sqs query maps have disjoint key sets, and so do the two mutation maps, so no sqs field overwrites an sns one (with `MergeKeepsTarget`); each root map is exactly `Merge` of its two exported maps; the root queries enumerate `topics`, `queues` and the root mutations `createTopic`, `deleteQueue`, `createQueue`; both root maps are well-formed, so these lists are also exactly their key sets |
| `CreateQueue.SqsCreateQueueParams` | src/schema/sqs/index.js:141-145 | as written: throws `TypeError` exactly when `Attributes` is omitted or `null`; otherwise the argument is cleaned in place, but the payload's `Attributes` entry is `undefined` |
| `CreateQueue.AwsCreateQueueParams` | src/schema/aws.js:134-137 | as written: never throws; a truthy `Attributes` is cleaned, but the payload gets an `Attributes` key bound to `undefined`; a falsy one gives `{QueueName}` only |
| `CreateQueue.CreateQueueParams` | src/schema/aws.js:134-137 | corrected: never throws; a truthy `Attributes` is cleaned in place and forwarded as the payload's `Attributes`; otherwise the payload is `{QueueName}` only |
| `CreateQueue.DelayAttributesCleaned` | src/utils/helpers.js:2-6 | cleaning `{DelaySeconds: "5", VisibilityTimeout: undefined}` leaves `{DelaySeconds: "5"}` |
| `CreateQueue.DelayLostAsWritten` | src/schema/sqs/index.js:141-145 | on that input, the sqs resolver as written sends `Attributes: undefined` |
| `CreateQueue.DelayKeptCorrected` | src/schema/sqs/index.js:141-145 | on that input, the corrected resolver sends `{DelaySeconds: "5"}` |
| `CreateQueue.OmittedAttributesExample` | src/schema/sqs/index.js:141-145 | with no `Attributes` argument, the sqs resolver as written throws `TypeError`; the corrected one sends `{QueueName: "orders"}` |

## Left out

- There are no service calls. `createQueueAsync`, `listQueuesAsync`,
  `getQueueAttributesAsync`, `sendMessageAsync`, `listTopicsAsync` and the
  others run over the network. Their behaviour is not part of the code.
  The model stops at the parameter object the resolver would send.
- Bluebird promisification and asynchronous resolution are not modelled.
  There is no local state to coordinate, so leaving them out loses nothing.
- GraphQL type and schema construction is not modelled: `GraphQLSchema`,
  `GraphQLObjectType`, `GraphQLNonNull`, and query validation and execution.
  These belong to the graphql library. Field descriptors are opaque object
  references. `Object.assign` copies them shallowly, and so does the model.
- Input coercion of the `Attributes` argument by the graphql library is not
  modelled. The model takes the argument as any `Value`.
- src/api.js (the Express server) is not part of this model.
- src/schema.js (an older variant made only of service wrappers) is not part
  of this model.
- The resolver bodies are not modelled beyond the two `createQueue`
  parameter objects. This covers the `root.QueueUrl || root` and
  `root.TopicArn` fallbacks.
- The attribute ranges in the field descriptions (for example DelaySeconds
  0–900) are documentation only. The source never enforces them.
- src/schema/aws.js is modelled only for the `createQueue` guard. That file
  imports neither `helpers` nor the `graphql` template tag it uses. Its own
  type definitions give `createQueue` no `Attributes` argument. So the file
  would throw a `ReferenceError` as soon as it is loaded, and its guarded
  branch could never run. The model
  follows the statements as if those names resolved.
- JsObjects.Value: numbers are unbounded integers. Floating point, `NaN`,
  symbols, prototypes, getters and non-enumerable properties are not
  modelled.
- JsObjects.JsObject.Keys: key order is insertion order. JavaScript lists
  integer-like keys first, in ascending order. That rule is not modelled.
  No key in this program is integer-like.
- Helpers.RemoveUndefinedKeys: a primitive argument other than `undefined`
  or `null` (a string, number or boolean) is modelled as returning
  `undefined` with no effect. That is what `Object.keys` does on a primitive
  since ES2015, which wraps it in an object. Under ES5 such an argument
  would throw.

## Findings

| source | as written | input that shows it | evidently intended | confidence | as-written member | corrected member |
|---|---|---|---|---|---|---|
| src/schema/sqs/index.js:144 | `Attributes` is set to `removeUndefinedKeys`'s return value, which is always `undefined`, so the supplied attributes never reach the service | `createQueue` with `QueueName: "orders"` and the attributes object `{DelaySeconds: "5", VisibilityTimeout: undefined}` | clean the argument in place and forward that same object | high; not executed | `CreateQueue.SqsCreateQueueParams` | `CreateQueue.CreateQueueParams` |
| src/schema/sqs/index.js:144 | the helper is called without a guard, so an omitted optional `Attributes` argument makes `Object.keys(undefined)` throw `TypeError` | `createQueue(QueueName: "orders")` | skip the attributes when none are given, as src/schema/aws.js:135 does | high; not executed | `CreateQueue.SqsCreateQueueParams` | `CreateQueue.CreateQueueParams` |
| src/schema/aws.js:136 | the guard is present, but `Object.assign` still copies `Attributes: undefined` into the parameters; this is a latent defect, since the file cannot run as shipped: the `graphql` tag used at aws.js:13 is never imported, and the type definition at aws.js:52 declares no `Attributes` argument | `createQueue` with `QueueName: "orders"` and the attributes object `{DelaySeconds: "5", VisibilityTimeout: undefined}`, once the missing import and argument are supplied | forward the cleaned object | high; not executed | `CreateQueue.AwsCreateQueueParams` | `CreateQueue.CreateQueueParams` |

`CreateQueue.DelayLostAsWritten`, `CreateQueue.DelayKeptCorrected` and
`CreateQueue.OmittedAttributesExample` prove both sides of the first two rows
on the concrete inputs.
