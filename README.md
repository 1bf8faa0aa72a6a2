# fiddler_crab request server, modelled in Dafny

fiddler_crab is a small HTTP-shaped request server. Its accept loop reads a request,
keeps only POST requests, cuts the body after the header block, slices an endpoint
name out of the body, gives the request the next request id and registers the
connection under that id. When the handler state is Idle it spawns a handler thread
that owns a disposable handoff queue; otherwise it tries to queue the request. The
handler pushes its initial request to the back of the queue, pops items front first,
runs each through module processing and sends `(id, result)` over a channel. The
accept loop then receives one result, removes its id from the connection map and
writes a success or a 500 response to that connection. A handler panic stores
Failed. If the accept loop sees that store at its Failed check, it leaves its
listener and starts again with a fresh listener, channel and connection map; if the
store lands after the check, the loop waits at its receive for ever. Two endpoint
modules come with it: an echo module and a llamacpp module whose parser strips NUL
characters from the body.

The project has six modules:

- `Wrappers` (`wrappers.dfy`): `Option` and `Result` with a string error.
- `EchoInputData` (`echo_input_data.dfy`): the echo module's types, its parser and its processor.
- `Llamacpp` (`llamacpp.dfy`): the llamacpp module's types and its parser.
- `Http` (`http.dfy`): the pure string handling of the accept loop and of the
  response writer. This covers `find`, body extraction, endpoint-name slicing,
  module-name formatting and the two response formats.
- `Server` (`server.dfy`): `RequestUnit`, `HandlerState`, module processing, and the
  class `Server`. The class holds the handler state, both counters, the connection
  map, the current handoff queue and the channel as fields. Its methods are
  `Accept` (one connection up to the Failed check), `Place` (its Idle check),
  `Drain` (the handler),
  `RouteNext` (receive and respond), `Restart` (the outer loop), `ServeOne` (one
  turn of the accept loop, `Accept` then `Finish`) and `Serve` (a run of connections). The fields taken
  together as a value form a `Snapshot`. The functions `Admit`, `Placement`,
  `Receive`, `Turn` and `Run` say what a method does to a snapshot, and the methods are proved
  against them. The lemmas about one turn and about a run state what the loop
  keeps and how it ends.
- `Scenarios` (`scenarios.dfy`): whole turns on concrete requests.

Threads become method calls. A spawned handler is a call to `Drain`, which runs
until its queue is empty. The channel is the field `channel`, which holds the
messages sent but not yet received. `ServeOne` picks one legal interleaving: the
spawned handler drains before the accept loop reaches its Failed check and its
receive; the other ordering is under "## Left out". Connections are opaque `Connection` values, and the request is the text the
server decoded from its read buffer. The filesystem's directory test is a parameter
`isDir: string -> bool`. A panic inside the handler's guarded closure is a parameter
`fault: Option<nat>`, the index of the popped item whose processing panics.

What the code does, as the model states it:

- The handler state has only `Idle` and `Failed`. The only write to it is the store
  of `Failed` after a handler panic. `Restart` does not reset it. Once it is
  Failed, no request is ever dispatched again: every POST whose endpoint slice does
  not panic is queued or dropped and ends the turn with a restart (`ServeOne`, `Serve`, `FailedHandlerIsNeverReplaced`).
- Each connection starts with a fresh queue. A request queued in the not-Idle branch
  therefore sits in a queue that the next connection replaces, and no handler ever
  processes it.
- The queue counter grows by 2 per queued request and by 1 per dropped one. It is
  reset to 0 only on dispatch.
- The endpoint name is `body[1..k]`, where `k` is the first '/'. This slice panics
  when the body is empty or starts with '/'. For example, the body
  `/unknown_endpoint/x` panics the accept loop instead of producing a "not found"
  error (`SlashBodyPanics`). A body with no '/' loses its first character: the test
  client's `Hello, World!` names the endpoint `ello, World!` plus the buffer's NUL
  padding (`EchoClientGetsServerError`).
- The doc comment on the handler state (fiddler_crab/src/main.rs:30-41) and the
  comment before the Idle check (fiddler_crab/src/main.rs:577-586) describe a `Busy`
  state. Its variant is commented out (fiddler_crab/src/main.rs:25) and nothing
  stores it, so the model has no `Busy`.
- Module processing never succeeds. The existence check looks at
  `"endpoint_modules/" + module name`, and the module name already starts with
  `endpoint_modules/`, so the path carries that prefix twice.
- A turn that is not a POST still waits for one result. Both senders of the channel
  live as long as the listener, and each dispatched request's own turn receives the
  one result its handler sends. So when a request that is not a POST arrives, no
  result is pending, the wait blocks (`Blocked`) for ever, and no later connection is
  accepted (`RunFromQuietStart`, `NonPostBlocksLaterRequests`).

## Model

| member | source | states |
|---|---|---|
| `EchoInputData.ParseEchoInputData` | fiddler_crab/src/endpoint_modules/echo_input_data/parse.rs:12-23 | parsing never fails; the input carries the body unchanged; the output starts as the empty echoed string |
| `EchoInputData.ProcessEchoRequest` | fiddler_crab/src/endpoint_modules/echo_input_data/module.rs:12-24 | processing never fails; the input is left as it was; the output's string is the input's string |
| `EchoInputData.ParseInjective` | fiddler_crab/src/endpoint_modules/echo_input_data/parse.rs:14 | two bodies that parse to the same module data are equal |
| `EchoInputData.ProcessIgnoresPriorOutput` | fiddler_crab/src/endpoint_modules/echo_input_data/module.rs:16-21 | the processed result depends only on the input, not on the output value it came in with |
| `EchoInputData.ProcessIdempotent` | fiddler_crab/src/endpoint_modules/echo_input_data/module.rs:16-23 | processing a processed request again gives the same result |
| `EchoInputData.EchoRoundTrip` | fiddler_crab/src/endpoint_modules/echo_input_data/module.rs:16-21 | parsing then processing any body s succeeds with output `EchoedString(s)` |
| `Llamacpp.RemoveNul` | fiddler_crab/src/endpoint_modules/llamacpp/parse.rs:6 | the result has no NUL, is no longer than the input, and keeps every other character with its multiplicity |
| `Llamacpp.ParseLlamacppRequest` | fiddler_crab/src/endpoint_modules/llamacpp/parse.rs:4-18 | parsing never fails; the prompt is the body without NULs, has no NUL and is no longer than the body; the output starts as empty text |
| `Llamacpp.RemoveNulAppend` | fiddler_crab/src/endpoint_modules/llamacpp/parse.rs:6 | NUL removal distributes over concatenation, so kept characters stay in their original order |
| `Llamacpp.RemoveNulSingle` | fiddler_crab/src/endpoint_modules/llamacpp/parse.rs:6 | one character is dropped exactly when it is NUL |
| `Llamacpp.RemoveNulIdentity` | fiddler_crab/src/endpoint_modules/llamacpp/parse.rs:6 | a body without NULs is its own prompt |
| `Llamacpp.RemoveNulIdempotent` | fiddler_crab/src/endpoint_modules/llamacpp/parse.rs:6 | removing NULs twice equals removing them once |
| `Llamacpp.RemoveNulOfPadding` | fiddler_crab/src/endpoint_modules/llamacpp/parse.rs:6 | a run of NULs is removed entirely |
| `Llamacpp.PaddingDoesNotReachPrompt` | fiddler_crab/src/endpoint_modules/llamacpp/parse.rs:4-9 | a body followed by any amount of NUL padding parses to the same module data as the bare body |
| `Llamacpp.ParseIdempotentOnPrompt` | fiddler_crab/src/endpoint_modules/llamacpp/parse.rs:6-9 | parsing a parsed prompt again yields the same prompt |
| `Http.Find` | fiddler_crab/src/main.rs:536 | the result is an occurrence of the pattern with none before it, or none when the pattern occurs nowhere |
| `Http.FindChar` | fiddler_crab/src/main.rs:555 | the index is at most the length, no earlier character is the one searched for, and below the length it is that character |
| `Http.BodyAfterHeaders` | fiddler_crab/src/main.rs:536-547 | with a first "\r\n\r\n" at i the text is `text[..i]` + "\r\n\r\n" + body; without one the body is the whole text |
| `Http.FindAfterHeaderLines` | fiddler_crab/src/main.rs:536 | after a first line without carriage return and any non-empty header lines without carriage return, the first "\r\n\r\n" is the one that ends them |
| `Http.PostRequestBody` | fiddler_crab/src/main.rs:533-547 | "POST" + a request line without carriage return + plain header lines + blank line + body is a POST whose body is exactly that body |
| `Http.EndpointName` | fiddler_crab/src/main.rs:555 | the slice panics exactly for an empty body or a body starting with '/'; otherwise the name holds no '/' and the body is one character, the name, then nothing or a '/' |
| `Http.EndpointNameWithoutSlash` | fiddler_crab/src/main.rs:555 | a non-empty body without '/' names the endpoint by everything after its first character |
| `Http.ParseRequestCases` | fiddler_crab/src/main.rs:533-558 | a request is ignored exactly when it is not a POST, panics exactly when its body is empty or starts with '/', and otherwise yields its body and a '/'-free name that `body[1..]` starts with, followed by '/' or the end |
| `Http.ModuleNameInjective` | fiddler_crab/src/main.rs:558 | the module path starts with "endpoint_modules/", holds the name between its fixed prefix and suffix, and distinct names give distinct paths |
| `Http.Decimal` | fiddler_crab/src/main.rs:829-831 | the status is written as a non-empty string of digits that starts with '0' only for 0, and 0 is written "0", so without leading zeros |
| `Http.DecimalRoundTrip` | fiddler_crab/src/main.rs:829-831 | reading the written status back gives the status |
| `Http.SuccessResponseBody` | fiddler_crab/src/main.rs:829-833 | the success response starts "HTTP/1.1 " + status + " OK\r\n" and its text after the first blank line is exactly the body |
| `Http.ErrorResponseBody` | fiddler_crab/src/main.rs:839 | the error response starts "HTTP/1.1 500 " and its text after the first blank line is exactly the error message |
| `Server.ProcessRequestWithModule` | fiddler_crab/src/main.rs:114-137 | never Ok; no module name gives "No endpoint module specified"; a name whose directory test fails gives "Endpoint module not found among modules: " + name; otherwise the fixed placeholder error |
| `Server.ProcessErrorsDistinct` | fiddler_crab/src/main.rs:120-136 | the missing-name error occurs exactly when no name is set, and a "not found" error ends with the module name |
| `Server.ResponseText` | fiddler_crab/src/main.rs:826-842 | Ok writes a status line with the status (default 200) and the body (default empty) after the blank line; Err writes a 500 status line and the message after the blank line |
| `Server.ProcessingPreservesId` | fiddler_crab/src/main.rs:441-455 | module processing never turns one request's id into another's |
| `Server.EmitAllMatchesItems` | fiddler_crab/src/main.rs:438-456 | the handler sends one message per item, in pop order, carrying that item's id on both the Ok and Err paths and the processor's result for it |
| `Server.Receive` | fiddler_crab/src/main.rs:822-847 | the receive blocks exactly on an empty channel and then changes nothing; otherwise the oldest message leaves the channel and its id leaves the connection map; a response is written exactly when a connection is waiting under that id, to that connection and as that result's response text, and an unknown id is `Missed`; waiting ids stay below the id counter |
| `Server.AdmitEffects` | fiddler_crab/src/main.rs:521-661 | a request that is not a POST only resets the queue; any other uses up the current id; a POST's id is new to the connection map, which gains exactly that entry; an idle server dispatches with an empty handoff queue, the queue slot None and the queue counter 0; a failed one queues below 500 (counter + 2, the request alone in the queue) and drops at 500 (counter + 1) |
| `Server.TurnAdmits` | fiddler_crab/src/main.rs:533-558 | a turn admits what its request calls for (nothing, a slice panic, or a unit with the body, the endpoint's module and the peer address), under the id the server held, and uses up an id unless the request is not a POST |
| `Server.TurnKeepsFailed` | fiddler_crab/src/main.rs:587-666 | dispatch happens exactly for a POST on an idle server; the server ends Failed exactly when it was Failed or its handler panicked, so Failed is never left |
| `Server.TurnQueueCounter` | fiddler_crab/src/main.rs:624-660 | the queue counter becomes 0 on dispatch, rises by 2 for a queued and by 1 for a dropped request, and is otherwise unchanged; a request is queued exactly when the server is Failed and the counter is below 500 |
| `Server.TurnRestarts` | fiddler_crab/src/main.rs:662-666 | a queued or dropped request, or a handler panic, ends the turn with no response and a fresh connection map and channel |
| `Server.TurnBlocks` | fiddler_crab/src/main.rs:822 | the receive blocks exactly when the request is not a POST and no result is pending; a turn that starts with no pending result ends with none |
| `Server.TurnAnswersOwnConnection` | fiddler_crab/src/main.rs:587-847 | on an idle server with nothing pending and no handler panic, a POST is answered on its own connection with the 500 response of its module error, and the connection map ends as it began |
| `Server.TurnConsistent` | fiddler_crab/src/main.rs:521-574 | a turn keeps every waiting connection's id below the id counter |
| `Server.RunStops` | fiddler_crab/src/main.rs:518-855 | a run ends before its last connection only at a slice panic or a blocked receive, and no earlier turn is either |
| `Server.RunAdmits` | fiddler_crab/src/main.rs:518-572 | each outcome of a run is the one its own connection's request calls for, and the admitted requests get strictly increasing ids, none handed out before the run |
| `Server.RunKeepsFailed` | fiddler_crab/src/main.rs:587-666 | a run on a Failed server dispatches nothing and ends Failed |
| `Server.RunFromQuietStart` | fiddler_crab/src/main.rs:500-506 | from a start with nothing pending, a delivery blocks exactly for a request that is not a POST, and nothing is pending at the end |
| `Server.RunAdmitsBeforeLast` | fiddler_crab/src/main.rs:518-855 | from a start with nothing pending, every turn before the last of a run admits a request |
| `Server.RunIdsFromQuietStart` | fiddler_crab/src/main.rs:518-574 | from a start with nothing pending, the i-th turn of a run that admits a request gives it the starting id + i, so ids are handed out without gaps |
| `Server.Server.constructor` | fiddler_crab/src/main.rs:477-503 | the server starts Idle (the initial state at main.rs:60) with both counters at 0, no waiting connection and an empty channel |
| `Server.Server.Accept` | fiddler_crab/src/main.rs:521-661 | the method's effect on the fields is `Admit` on the parsed request, whose effects `AdmitEffects` states, and the id invariant holds |
| `Server.Server.Place` | fiddler_crab/src/main.rs:576-660 | the effect of the Idle check is `Placement`: an idle server dispatches with the empty handoff queue, takes the queue and resets the counter to 0; otherwise the request is queued below capacity, the counter rising by 2 (the push and the shared increment), or dropped at capacity, the counter rising by 1 |
| `Server.Server.Drain` | fiddler_crab/src/main.rs:427-470 | the initial request goes to the back; items are processed front first; the channel gains exactly the messages for the items before the faulting one; a fault sets Failed and abandons the rest |
| `Server.Server.RouteNext` | fiddler_crab/src/main.rs:822-847 | the method's effect on the fields and the delivery are `Receive` on the old fields |
| `Server.Server.Restart` | fiddler_crab/src/main.rs:495-503 | fresh connection map and channel; handler state and both counters unchanged |
| `Server.Server.Finish` | fiddler_crab/src/main.rs:587-847 | the rest of a turn is `Complete`: a request that is not a POST goes straight to the receive, a slice panic writes nothing, a dispatched request is handled and routed, and a queued or dropped request restarts the loop with a fresh map and channel |
| `Server.Server.HandleThenRoute` | fiddler_crab/src/main.rs:609-667 | the handler spawned for a request with the connection's empty queue drains it; a fault on it stores Failed, restarts the loop and writes nothing; on an idle server the effect is the rest of the turn as `Complete` states it |
| `Server.Server.ServeOne` | fiddler_crab/src/main.rs:518-851 | the admission, the delivery and the new fields are those of `Turn` on the parsed request, whose properties the Turn lemmas state |
| `Server.Server.Serve` | fiddler_crab/src/main.rs:495-862 | the admissions, the deliveries and the new fields are those of `Run` on the parsed requests, whose properties the Run lemmas state |
| `Scenarios.EchoClientRequestShape` | py_requests_testing/hit.py:8-20 | the test client's request, with any plain header lines including its Content-Type line, is a POST whose body is "Hello, World!" plus padding and whose endpoint name is "ello, World!" plus padding |
| `Scenarios.EchoClientGetsServerError` | py_requests_testing/hit.py:8-20 | a fresh server answers the test client on its own connection with a 500 response whose body is the not-found or the placeholder error |
| `Scenarios.SlashRequestPanics` | fiddler_crab/src/main.rs:555 | a POST with body "/unknown_endpoint/x" is read as a slice panic |
| `Scenarios.SlashBodyPanics` | fiddler_crab/src/main.rs:555 | a body "/unknown_endpoint/x" makes the endpoint slice panic, and no response is written |
| `Scenarios.FailedHandlerIsNeverReplaced` | fiddler_crab/src/main.rs:635-667 | after a handler panic, the next POST is queued rather than dispatched, nothing answers it, and the state is still Failed |
| `Scenarios.NonPostBlocksLaterRequests` | fiddler_crab/src/main.rs:822 | on a fresh server, a GET followed by the test client's POST ends the run at the GET's blocked receive; the POST is never read |

## Left out

- Sockets and network I/O are not modelled. This covers binding, accepting, `read`, `peer_addr` and `write_all`/`flush`, including the panics of their `unwrap`s. A connection is an opaque value and a write is a returned `Delivery`.
- The 1024-byte read buffer and the lossy UTF-8 decoding are not modelled. The request is the decoded text, NUL padding included; a longer request is not truncated.
- Threads, the mpsc channel, atomic orderings and the sleep-polling loop are not modelled. A handler drains its queue to the end when it is spawned, and the polling that follows does nothing observable. The handler owns its queue after the move, so nothing else can add to it.
- Results from handlers of different turns cannot interleave in the model. A send to a channel whose receiver was dropped by a restart never happens in it.
- Server.Server.Accept: does not model usize wrap-around of the request-id and queue counters. They are unbounded naturals, so ids are unique for every run.
- Http.EndpointName: does not model the slice panic when the body's first character takes more than one byte in UTF-8. Indices are counted in characters, not bytes.
- Server.Server.ServeOne: models only the ordering in which a handler panic's store of Failed (main.rs:466) lands before the accept loop's Failed check (main.rs:664). The loop does not wait for the thread it spawns (main.rs:609-615). If the store lands after that check, there is no restart: the loop reaches its receive (main.rs:822), nothing is ever sent while both senders (main.rs:500, 506) live, and it blocks for ever, as for a request that is not a POST. `Complete`, `Turn`, `Run` and `HandleThenRoute` describe the restart only.
- A panic of the accept loop's own thread, from the endpoint slice, ends the process. `Serve` stops there, and it stops at a blocked receive too.
- `validate_endpoint_module_exists` is the parameter `isDir`. `module_exists` (a constant-true stub) and `convert_output_to_json_string` (unimplemented) are never called and are left out.
- The commented-out drafts of module routing, the GET branch and the older handlers are left out.
- fiddler_crab/src/endpoint_modules/llamacpp/module.rs is left out. It runs an external binary with hard-coded paths.
- Logging (`println!`, `eprintln!`) is left out.
