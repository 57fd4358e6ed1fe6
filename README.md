# Product-event factory of the Rust Kafka message provider

This project models, in Dafny, the core of the Rust provider of the Pact message workshop
(`provider-rust-kafka/src/main.rs`). The provider turns create, update and delete calls on a
`Product` into `ProductEvent` records and sends them to one Kafka topic.

- `wrappers.dfy`, module `Wrappers`: `Option` and `Result`.
- `decimal.dfy`, module `Decimal`: the decimal text of a Rust `u32`. `ParseU32` is
  `str::parse::<u32>`: an optional leading `+`, leading zeros allowed, errors `Empty`,
  `InvalidDigit` and `PosOverflow`, digits consumed left to right with checked arithmetic.
  `RenderNat` is the `{}` formatting. Parsing a rendered `u32` gives the number back
  (`ParseRendered`), and every canonical digit string in range parses to a number whose
  rendering is that string (`CanonicalParsesBack`).
- `product_events.dfy`, module `ProductEvents`: the `Product` and `ProductEvent` records,
  `increment_version` (`IncrementVersion`) and `create_event` (`CreateEvent`). Each way the
  Rust code panics is an `Err(Panic)` result:
  - `v[1..]` on an empty string;
  - `v[1..]` when the first character is more than one byte, so byte 1 is not a character boundary;
  - the `unwrap` of a failed parse;
  - `num + 1` at `u32::MAX`.

  The UUID that `create_event` draws for a product without an id is the parameter `freshId`.
- `publisher.dfy`, module `Publisher`: the event kinds `"CREATED"`, `"UPDATED"` and
  `"DELETED"`, and the class `ProductEventService`. Its `topic` is a `const` set by the
  constructor. A ghost `published` log of (topic, event) records stands in for the broker.
  `Create`, `Update` and `Delete` each build the event with their own kind. They append
  exactly one record when the factory succeeds and none when it panics.

Where the design description of the system and the code disagree, the model follows the code:
- The description says a malformed version yields a handled `MalformedVersion` error. The code panics, and the model returns `Err(Panic)` with the precise cause.
- The description says the version must start with `"v"`. The code drops the first character without looking at it. So `"x5"` and `"15"` both give `"v6"` (`OtherPrefixes`).
- The description says every event has a non-empty identity. The code copies a present id unchanged, so `Some("")` gives an event whose id is empty (`EmptyIdCopied`). The id is non-empty when the present id and the fresh one are (`NonEmptyId`).
- The description gives the event kind as an enumeration. The code stores it as a `String` and `create_event` accepts any string. `CreateEvent` takes a string, and the three operations pass the literals of `Publisher.EventType`.

## Model

| member | source | states |
|---|---|---|
| Decimal.RenderNat | provider-rust-kafka/src/main.rs:98 | `{}` of a number is a canonical digit string (digits only, no sign, no leading zero) that denotes exactly that number; it starts with '0' only for 0 |
| Decimal.RenderValue | provider-rust-kafka/src/main.rs:98 | every canonical digit string is the rendering of the number it denotes, so rendering is injective and inverse to reading |
| Decimal.Accumulate | provider-rust-kafka/src/main.rs:97 | the checked digit loop yields the value of an all-digit string when it is at most `u32::MAX` and `PosOverflow` otherwise; any non-digit makes it fail; it never reports `Empty` |
| Decimal.ParseU32 | provider-rust-kafka/src/main.rs:97 | `parse::<u32>` fails with `Empty` exactly on the empty string, succeeds exactly on an optional '+' followed by at least one digit denoting at most `u32::MAX`, returns that number, and reports `PosOverflow` for every all-digit string above `u32::MAX` |
| Decimal.ParseRendered | provider-rust-kafka/src/main.rs:97-98 | parsing the rendering of any `u32` gives the number back |
| Decimal.CanonicalParsesBack | provider-rust-kafka/src/main.rs:97-98 | every canonical digit string denoting at most `u32::MAX` parses, and rendering the parsed number gives the same string |
| Decimal.ParseLeadingZero | provider-rust-kafka/src/main.rs:97 | a leading zero before a digit string changes no parse result |
| Decimal.ParseLeadingPlus | provider-rust-kafka/src/main.rs:97 | one leading '+' changes no parse result |
| ProductEvents.IncrementVersion | provider-rust-kafka/src/main.rs:94-102 | succeeds exactly on no version or a one-byte first character followed by a `u32` literal below `u32::MAX`; the result is 'v' and a positive canonical decimal one above the old number (0 for no version); each panic cause (empty string, multi-byte first character, parse failure, `u32::MAX + 1`) happens exactly on its inputs |
| ProductEvents.VersionIsRendered | provider-rust-kafka/src/main.rs:98 | a version of the form the rule writes is "v" followed by the rendering of its number, so the result of `IncrementVersion` is fully determined |
| ProductEvents.IncrementRendered | provider-rust-kafka/src/main.rs:97-98 | "v" + render(n) increments to "v" + render(n+1) for every n below `u32::MAX` |
| ProductEvents.IncrementOfVersion | provider-rust-kafka/src/main.rs:94-102 | an output of the rule below `u32::MAX` is a valid input to it and steps on by one |
| ProductEvents.FirstCharacterIgnored | provider-rust-kafka/src/main.rs:97 | any one-byte first character is treated exactly as 'v' |
| ProductEvents.IncrementTimesRendered | provider-rust-kafka/src/main.rs:94-102 | applying the rule k times to "vN" gives "v(N+k)" whenever N+k fits in a `u32` |
| ProductEvents.FirstVersions | provider-rust-kafka/src/main.rs:94-102 | no version gives "v1", and "v1" gives "v2" |
| ProductEvents.OtherPrefixes | provider-rust-kafka/src/main.rs:97-98 | "x5" and "15" both give "v6" |
| ProductEvents.LaterVersions | provider-rust-kafka/src/main.rs:97-98 | "v3" gives "v4" and "v9" gives "v10" |
| ProductEvents.ZerosAndPlus | provider-rust-kafka/src/main.rs:97-98 | "v007" and "v+7" both give the canonical "v8" |
| ProductEvents.RejectedVersions | provider-rust-kafka/src/main.rs:97-98 | "" fails on the slice, a first character 'é' on the character boundary, "v" and "1" with `Empty`, "v+", "v-1" and "version2" with `InvalidDigit` |
| ProductEvents.BoundaryVersions | provider-rust-kafka/src/main.rs:97-98 | "v" and the rendering of `u32::MAX` (4294967295) fails on `num + 1`; "v" and the rendering of `u32::MAX + 1` fails to parse with `PosOverflow` |
| ProductEvents.CreateEvent | provider-rust-kafka/src/main.rs:29-40 | `create_event` fails exactly when `increment_version` does, with the same cause; otherwise the event's version is 'v' and the snapshot's number plus one |
| ProductEvents.CreateEventKeepsId | provider-rust-kafka/src/main.rs:32-34 | a present id is copied verbatim and the fresh id then has no influence on the event |
| ProductEvents.CreateEventFreshId | provider-rust-kafka/src/main.rs:32-34 | a product without an id gets the fresh id |
| ProductEvents.EmptyIdCopied | provider-rust-kafka/src/main.rs:32-34 | a present empty id is copied unchanged, so the event's id is empty |
| ProductEvents.NonEmptyId | provider-rust-kafka/src/main.rs:32-34 | the event's id is non-empty when the product's id, if present, and the fresh id are non-empty |
| ProductEvents.CreateEventCopies | provider-rust-kafka/src/main.rs:29-40 | name and type are copied, the kind is the argument, and the version is `increment_version` of the snapshot's version |
| ProductEvents.EventKindFromArgument | provider-rust-kafka/src/main.rs:37 | two events built with the same kind carry that kind whatever the snapshots are |
| ProductEvents.NextEvent | provider-rust-kafka/src/main.rs:29-40 | building an event from the snapshot of an earlier event keeps its id, name and type and moves its version on by one |
| ProductEvents.FixtureUpdate | provider-rust-kafka/src/main.rs:200-207 | the message fixture ("some-uuid-1234-5678" at "v1", kind "UPDATED") gives the same id at "v2" with kind "UPDATED" |
| Publisher.LiteralRoundTrip | provider-rust-kafka/src/main.rs:78-91 | each operation's kind literal reads back as that operation, so the three literals are distinct |
| Publisher.EventTypeOfOnlyLiterals | provider-rust-kafka/src/main.rs:78-91 | a string reads back as an operation exactly when it is that operation's literal |
| Publisher.ProductEventService.constructor | provider-rust-kafka/src/main.rs:49-52 | the topic is the argument and nothing has been published |
| Publisher.ProductEventService.Publish | provider-rust-kafka/src/main.rs:68-76 | exactly one record, the event on the service's topic, is appended to the log |
| Publisher.ProductEventService.Create | provider-rust-kafka/src/main.rs:78-81 | the event is `create_event` with "CREATED"; the log gains exactly that event on the fixed topic, or nothing if the factory panics |
| Publisher.ProductEventService.Update | provider-rust-kafka/src/main.rs:83-86 | the event is `create_event` with "UPDATED"; the log gains exactly that event on the fixed topic, or nothing if the factory panics |
| Publisher.ProductEventService.Delete | provider-rust-kafka/src/main.rs:88-91 | the event is `create_event` with "DELETED"; the log gains exactly that event on the fixed topic, or nothing if the factory panics |

`Publisher.ThreeCalls` is a client of the class. It makes three calls on one service and asserts the log they leave: one record per call, in call order, all on the topic `"products"`.

## Left out

- Building the Kafka producer (`ProductEventService::new`, provider-rust-kafka/src/main.rs:43-47) is network configuration of a foreign library. The constructor takes only the topic.
- Publisher.ProductEventService.Publish: `FutureProducer::send` with `Timeout::Never` and the `unwrap` of its result (provider-rust-kafka/src/main.rs:70-75) are broker I/O. The model treats every send as delivered. A rejected or unacknowledged send, which panics or stalls in the source, is not modelled.
- The `tokio::sync::Mutex` around the producer (provider-rust-kafka/src/main.rs:25, 71) and the async runtime exist for concurrency. The model is sequential, and it says nothing about interleavings of concurrent calls.
- The `serde_json::to_string` payload (provider-rust-kafka/src/main.rs:69) is derived library code. A record's payload is the event itself.
- UUID v4 generation (provider-rust-kafka/src/main.rs:34) draws on entropy. It is the `freshId` parameter, which may be any string: its format, its non-emptiness and the uniqueness of generated ids are not modelled.
- ProductEvents.IncrementVersion: `num + 1` at `u32::MAX` is modelled as the panic of a build with overflow checks (Cargo's debug and test profiles). A release build would wrap to `"v0"`.
- The Actix handlers, routes and `main` (provider-rust-kafka/src/main.rs:104-144) are HTTP plumbing and status-code mapping.
- The Pact verification test harness (provider-rust-kafka/src/main.rs:146-312) is an HTTP proxy with a shutdown channel. Only its fixture values are used, in `FixtureUpdate`.
- `provider-python-kafka/tests/provider_server.py` is a Flask test server with subprocess and port handling. It has no domain logic.
