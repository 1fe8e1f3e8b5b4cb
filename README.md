# Routing-subscriber delivery ledger

A Dafny model of the gRPC pub/sub routing fixture of Dapr's end-to-end tests
(`tests/apps/pubsub-subscriber-routing_grpc/app.go`). The app is the callback
service the Dapr sidecar calls. It declares one topic subscription with
content-based routing rules. It records every event the broker delivers in a
per-route set of payloads, the delivery ledger. A test driver resets that
ledger and reads it back through the generic invoke channel.

Modules:

- `Routes` (`routes.dfy`): the six routes `A`..`F`, their paths `myevent.A`..`myevent.F`, and the path switch of `OnTopicEvent`.
- `Subscriptions` (`subscriptions.dfy`): the constant routing declaration of `ListTopicSubscriptions`.
- `StringSet` (`string_set.dfy`): Go strings as byte sequences, Go's string order, and the sorted listing that `sets.String.List()` returns.
- `Ledger` (`ledger.dfy`): the ledger as a value, plus the dispatch and command-parsing functions that specify the handlers. It also holds the request, response and report records.
- `App` (`app.dfy`): class `Server`. Its six fields are the package-level sets. Its methods are the handlers, each proved against the `Ledger` functions.
- `Properties` (`properties.dfy`): lemmas relating several calls: idempotence, per-route deduplication, DROP, reset, report determinism, no lost updates and the end-to-end scenario.

Two details of the Go code shape the model:

- The accepting disposition is `SUCCESS` (`pb.TopicEventResponse_SUCCESS`, app.go:225).
- The report lists are in ascending byte order, because `sets.String.List()` sorts.

## Model

| member | source | states |
|---|---|---|
| `Routes.PathToRoute` | tests/apps/pubsub-subscriber-routing_grpc/app.go:198-217 | a path is mapped to a route exactly when it is that route's path; every other path is mapped to nothing (the DROP arm) |
| `Routes.PathRoundTrip` | tests/apps/pubsub-subscriber-routing_grpc/app.go:43-48 | each route is recognised under its own path and under no other |
| `Subscriptions.ListTopicSubscriptions` | tests/apps/pubsub-subscriber-routing_grpc/app.go:164-186 | exactly one subscription, on bus `messagebus` and topic `pubsub-routing-grpc`; its rules route to C then B, in that order, with default A; every rule matches the event type equal to its own path; it takes no ledger state, so it never depends on prior deliveries |
| `StringSet.List` | tests/apps/pubsub-subscriber-routing_grpc/app.go:149-154 | `List()` of a set returns every member exactly once, in strictly ascending Go string order, with length equal to the set's size |
| `StringSet.ListCardinality` | tests/apps/pubsub-subscriber-routing_grpc/app.go:149-154 | a sorted listing of a set has no duplicates and as many entries as the set has members |
| `StringSet.ListUnique` | tests/apps/pubsub-subscriber-routing_grpc/app.go:149-154 | a set has only one sorted listing |
| `Ledger.Ledger.Insert` | tests/apps/pubsub-subscriber-routing_grpc/app.go:219-221 | inserting into one route's set adds the payload to that set and leaves the other five unchanged |
| `Ledger.Empty` | tests/apps/pubsub-subscriber-routing_grpc/app.go:110-118 | after `initializeSets` every route set is empty |
| `Ledger.Dispatch` | tests/apps/pubsub-subscriber-routing_grpc/app.go:197-226 | the disposition is SUCCESS exactly when the path is one of the six; the payload is added to that route's set only, and an unknown path changes no set |
| `Ledger.ParseCommand` | tests/apps/pubsub-subscriber-routing_grpc/app.go:137-142 | "getMessages" and "initialize" are recognised exactly; every other name falls through as unsupported |
| `App.Server.constructor` | tests/apps/pubsub-subscriber-routing_grpc/app.go:83-85 | the server starts serving with all six sets empty |
| `App.Server.InitializeSets` | tests/apps/pubsub-subscriber-routing_grpc/app.go:110-118 | the new state is the empty ledger, whatever the old state |
| `App.Server.GetMessages` | tests/apps/pubsub-subscriber-routing_grpc/app.go:147-155 | each report field is the sorted listing of the same route's set; the state is only read |
| `App.Server.OnInvoke` | tests/apps/pubsub-subscriber-routing_grpc/app.go:136-144 | the content type is always `application/json`; "getMessages" answers the report of the unchanged state; "initialize" empties all sets and answers an empty body; any other name answers an empty body and leaves the state unchanged |
| `App.Server.OnTopicEvent` | tests/apps/pubsub-subscriber-routing_grpc/app.go:190-227 | the new state and the disposition are those of `Dispatch` on the old state, the asserted path and the payload |
| `Properties.DeliverKnownPath` | tests/apps/pubsub-subscriber-routing_grpc/app.go:197-226 | a delivery on a route's own path inserts into exactly that route's set and answers SUCCESS |
| `Properties.DeliverUnknownPath` | tests/apps/pubsub-subscriber-routing_grpc/app.go:211-217 | a delivery on a path that is none of the six answers DROP and leaves all six sets unchanged |
| `Properties.DeliverIdempotent` | tests/apps/pubsub-subscriber-routing_grpc/app.go:219-221 | delivering the same payload on the same path twice gives the same state and answer as delivering it once |
| `Properties.DedupPerRoute` | tests/apps/pubsub-subscriber-routing_grpc/app.go:198-221 | the same payload delivered on two different routes is recorded in both sets, and the other sets are untouched |
| `Properties.DeliverAllContents` | tests/apps/pubsub-subscriber-routing_grpc/app.go:190-221 | a run of deliveries on any mix of paths adds to each route exactly the payloads delivered on that route's path; deliveries on unknown paths add nothing |
| `Properties.DeliveryOrderIrrelevant` | tests/apps/pubsub-subscriber-routing_grpc/app.go:190-192 | any two serialisations of the same (path, payload) deliveries, on the same or different routes, give the same ledger |
| `Properties.OnPathDelivered` | tests/apps/pubsub-subscriber-routing_grpc/app.go:197-221 | deliveries all on one path contribute their payloads to that path's route and to no other |
| `Properties.NoLostUpdate` | tests/apps/pubsub-subscriber-routing_grpc/app.go:191-221 | M distinct payloads delivered on one known path after a reset all appear in that route's report, which has exactly M entries |
| `Properties.RedeliveryReportsOnce` | tests/apps/pubsub-subscriber-routing_grpc/app.go:60-67 | one payload delivered N >= 1 times after a reset is reported exactly once on its route, and no other route reports anything |
| `Properties.ReportMirrorsLedger` | tests/apps/pubsub-subscriber-routing_grpc/app.go:148-155 | each report field holds exactly its route's payloads, with no duplicates, and as many entries as the set has |
| `Properties.ReportDeterministic` | tests/apps/pubsub-subscriber-routing_grpc/app.go:147-155 | a ledger has exactly one report |
| `Properties.ReportAfterReset` | tests/apps/pubsub-subscriber-routing_grpc/app.go:138-141 | the report of the state after "initialize" has every field empty |
| `Properties.EndToEndScenario` | tests/apps/pubsub-subscriber-routing_grpc/app.go:136-227 | initialize, then m1 on A, m2 on C and m1 on A again, reports [m1] on A, [m2] on C and nothing elsewhere |

## Left out

- `main` (app.go:74-107) is not modelled: TCP listen, gRPC registration, signal handling and graceful stop are process plumbing. Only its initial `initializeSets` is kept, as the `Server` constructor.
- The mutex is not modelled. Each handler is one atomic method. Concurrent deliveries, on any mix of paths, are modelled as some serial order of `Dispatch` steps (`DeliverAll` over (path, payload) pairs), which is what the lock guarantees.
- Request IDs (`uuid`, query-string parsing of `reqid`) and all logging are left out. They affect only diagnostics.
- The JSON encoding of the report is not modelled. The report is a record of six listings, not bytes. `json.Marshal` replaces invalid UTF-8 with U+FFFD, so two distinct payloads can reach the driver as the same JSON string; `Properties.ReportMirrorsLedger`'s "exactly its route's payloads, no duplicates" holds of the listing before encoding, not of the strings the driver decodes.
- Only the fields the handlers use are modelled: the method name of an invoke request, and the topic, path and data of a topic event. The topic is only logged and has no effect.
- Go's `error` results are not modelled. Every handler here always returns `nil`.
- `ListInputBindings` and `OnBindingEvent` are not modelled. They return constant empty responses and hold no logic.
- The broker's evaluation of the rules' `event.type == ...` match expressions is not modelled. Only their declaration is.
- `sets.String` from k8s.io/apimachinery is not part of this model. `StringSet.List` gives the sorted listing by repeatedly taking the least member, not by collecting and then calling `sort.Sort`. `StringSet.ListUnique` shows both procedures must return the same sequence.
- Payloads are byte strings (`Bytes`). Paths and method names are Dafny strings, because they are only compared for equality with constants.
- `utils/utils_test.go` is not modelled. It only tests functions whose source is not part of this model.
