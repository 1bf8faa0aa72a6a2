/** Whole turns and runs of the accept loop on concrete requests, as a client of the
    `Server` class sees them. */
module Scenarios {
  import opened Wrappers
  import opened Http
  import opened Server
  import Llamacpp

  /** The test client's body as the server reads it: "Hello, World!" and the read
      buffer's NUL padding. */
  function EchoClientBody(padding: nat): string {
    "Hello, World!" + Llamacpp.NulPadding(padding)
  }

  /** Header lines the test client may send: plain lines that include the
      Content-Type line it sets; its HTTP library adds the others. */
  predicate EchoClientHeaders(headers: seq<string>) {
    PlainHeaders(headers) && "Content-Type: text/plain" in headers
  }

  /** The request the test client sends: a POST to /echo_input_data with its header
      lines. */
  function EchoClientRequest(headers: seq<string>, padding: nat): string {
    "POST /echo_input_data HTTP/1.1" + HeaderLines(headers) + HeaderTerminator + EchoClientBody(padding)
  }

  /** The client's request line, cut after "POST". */
  lemma EchoClientRequestLine()
    ensures "POST /echo_input_data HTTP/1.1" == "POST" + " /echo_input_data HTTP/1.1"
    ensures '\r' !in " /echo_input_data HTTP/1.1"
  {
  }

  lemma EchoClientBodyHasNoSlash(padding: nat)
    ensures '/' !in EchoClientBody(padding)
  {
    assert '/' !in "Hello, World!";
    assert '/' !in Llamacpp.NulPadding(padding);
  }

  /** The client's request is a POST, its body is found after the blank line that ends
      its header lines, and the endpoint name the server slices from it is the body
      minus its first character. */
  lemma EchoClientRequestShape(headers: seq<string>, padding: nat)
    requires EchoClientHeaders(headers)
    ensures ParseRequest(EchoClientRequest(headers, padding)) ==
      Post(EchoClientBody(padding), "ello, World!" + Llamacpp.NulPadding(padding))
  {
    EchoClientRequestBody(headers, padding);
    EchoClientEndpointName(padding);
  }

  /** The client's request is a POST whose body is found after its header lines. */
  lemma EchoClientRequestBody(headers: seq<string>, padding: nat)
    requires EchoClientHeaders(headers)
    ensures IsPost(EchoClientRequest(headers, padding))
    ensures BodyAfterHeaders(EchoClientRequest(headers, padding)) == EchoClientBody(padding)
  {
    var body := EchoClientBody(padding);
    EchoClientRequestLine();
    PostRequestBody(" /echo_input_data HTTP/1.1", headers, body);
    assert EchoClientRequest(headers, padding) ==
      "POST" + " /echo_input_data HTTP/1.1" + HeaderLines(headers) + HeaderTerminator + body;
  }

  /** The endpoint name sliced from the client's body is the body minus its first
      character. */
  lemma EchoClientEndpointName(padding: nat)
    ensures EndpointName(EchoClientBody(padding)) == Some("ello, World!" + Llamacpp.NulPadding(padding))
  {
    var body := EchoClientBody(padding);
    EchoClientBodyHasNoSlash(padding);
    EndpointNameWithoutSlash(body);
    assert body[1..] == "ello, World!" + Llamacpp.NulPadding(padding);
  }

  /** On a fresh server the test client's request is dispatched and answered on its own
      connection with a 500 response whose body is the module error: the endpoint name
      is the body minus its first character, padding included. */
  method EchoClientGetsServerError(isDir: string -> bool, headers: seq<string>, padding: nat) returns (d: Delivery)
    requires EchoClientHeaders(headers)
    ensures d.Written? && d.conn == Connection(1, 1)
    ensures StartsWith(d.response, "HTTP/1.1 500 ")
    ensures var name := "ello, World!" + Llamacpp.NulPadding(padding);
            BodyAfterHeaders(d.response) in {NotFoundPrefix + ModuleName(name), PlaceholderMessage}
  {
    var server := new Server();
    EchoClientRequestShape(headers, padding);
    var request := EchoClientRequest(headers, padding);
    TurnAnswersOwnConnection(server.Snap(), ParseRequest(request), Connection(1, 1), isDir, None);
    var outcome;
    outcome, d := server.ServeOne(request, Connection(1, 1), isDir, None);
    ErrorResponseBody(ProcessRequestWithModule(outcome.unit, isDir).error);
  }

  /** A POST whose body is "/unknown_endpoint/x". */
  const SlashBody: string := "/unknown_endpoint/x"
  const SlashRequest: string := "POST / HTTP/1.1" + HeaderTerminator + SlashBody

  /** The request line of `SlashRequest`, cut after "POST". */
  lemma SlashRequestLine()
    ensures "POST / HTTP/1.1" == "POST" + " / HTTP/1.1"
    ensures '\r' !in " / HTTP/1.1"
  {
  }

  /** Its endpoint slice panics, since the body starts with '/'. */
  lemma SlashRequestPanics()
    ensures ParseRequest(SlashRequest) == SlicePanics
  {
    SlashRequestLine();
    PostRequestBody(" / HTTP/1.1", [], SlashBody);
    assert HeaderLines([]) == [];
    assert SlashRequest == "POST" + " / HTTP/1.1" + HeaderLines([]) + HeaderTerminator + SlashBody;
    assert IsPost(SlashRequest) && BodyAfterHeaders(SlashRequest) == SlashBody;
    assert SlashBody[0] == '/';
    assert EndpointName(SlashBody) == None;
  }

  /** A body that starts with '/', as in "/unknown_endpoint/x", makes the endpoint
      slice panic instead of producing a "not found" response. */
  method SlashBodyPanics(isDir: string -> bool) returns (outcome: Admission, d: Delivery)
    ensures outcome == SlicePanic && d == Skipped
  {
    var server := new Server();
    SlashRequestPanics();
    outcome, d := server.ServeOne(SlashRequest, Connection(1, 1), isDir, None);
  }

  /** After a handler panics the state stays Failed across the restart: the next POST is
      queued instead of dispatched, nobody answers it, and the loop restarts again. */
  method FailedHandlerIsNeverReplaced(isDir: string -> bool, headers: seq<string>)
    returns (first: Admission, second: Admission, d1: Delivery, d2: Delivery, finalState: HandlerState)
    requires EchoClientHeaders(headers)
    ensures first.Dispatched? && d1 == Skipped
    ensures second.Queued? && d2 == Skipped
    ensures finalState == Failed
  {
    var server := new Server();
    var request := EchoClientRequest(headers, 0);
    EchoClientRequestShape(headers, 0);
    first, d1 := server.ServeOne(request, Connection(1, 1), isDir, Some(0));
    second, d2 := server.ServeOne(request, Connection(2, 2), isDir, None);
    finalState := server.state;
  }

  /** A request that is not a POST, arriving while no result is pending, leaves the
      loop waiting for ever: the POST that follows it is never read. */
  method NonPostBlocksLaterRequests(isDir: string -> bool, headers: seq<string>)
    returns (outcomes: seq<Admission>, deliveries: seq<Delivery>)
    requires EchoClientHeaders(headers)
    ensures outcomes == [NotPost] && deliveries == [Blocked]
  {
    var server := new Server();
    var get := "GET / HTTP/1.1\r\n\r\n";
    assert !IsPost(get) by {
      assert get[..4] != "POST" by { assert get[0] == 'G'; }
    }
    var connections := [(get, Connection(1, 1)), (EchoClientRequest(headers, 0), Connection(2, 2))];
    outcomes, deliveries := server.Serve(connections, isDir, [None, None]);
  }
}
