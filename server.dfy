/** The server's accept loop, request handler and response routing, as one sequential
    state machine. The handler thread and the result channel become state of a
    `Server` object: the channel is the sequence of results sent and not yet received,
    and a spawned handler is a call to `Drain` that runs until its queue is empty. */
module Server {
  import opened Wrappers
  import opened Http

  /** Capacity of a handoff queue. */
  const MaxQueueSize: nat := 500

  /** The status code a success response carries when the processed request sets none. */
  const DefaultStatus: nat := 200

  type U16 = x: int | 0 <= x < 0x1_0000

  /** The handler's state. The source's `Busy` variant is commented out, so a handler
      is either available or has panicked. */
  datatype HandlerState = Idle | Failed

  /** An accepted connection: the handle a response is written to and the peer's address. */
  datatype Connection = Connection(handle: nat, peerAddr: nat)

  /** One request in flight: its id, the module it names, its body and its response slot. */
  datatype RequestUnit = RequestUnit(
    id: nat,
    endpointModuleName: Option<string>,
    body: string,
    outputForResponse: Option<string>,
    streamAddr: nat,
    responseStatus: Option<U16>,
    responseHeaders: Option<seq<(string, string)>>,
    responseBody: Option<string>)

  /** A result as the handler sends it: the request id and the processing outcome. */
  type Message = (nat, Result<RequestUnit>)

  /** What the accept loop did with one connection. */
  datatype Admission =
    | NotPost                                          // not a POST: nothing admitted
    | SlicePanic                                       // slicing the endpoint name panicked
    | Dispatched(unit: RequestUnit, handoff: seq<RequestUnit>)  // handed to a new handler
    | Queued(unit: RequestUnit)                        // appended to the connection's queue
    | Dropped(unit: RequestUnit)                       // queue counter at capacity

  /** The admissions that built a request unit. */
  predicate HasUnit(a: Admission) {
    a.Dispatched? || a.Queued? || a.Dropped?
  }

  /** What receiving one result did. */
  datatype Delivery =
    | Skipped                                          // the loop did not reach the receive
    | Blocked                                          // no result was sent: `recv` waits
    | Missed(id: nat)                                  // no connection waits for this id
    | Written(conn: Connection, response: string)      // the response written to the connection

  const NoModuleMessage: string := "No endpoint module specified"
  const NotFoundPrefix: string := "Endpoint module not found among modules: "
  // Two literals, so that the verifier can see the characters of the message.
  const PlaceholderMessage: string := "Need concrete implementation " + "of module lookup and processing"

  /** The directory path whose existence decides whether a module counts as present. */
  function ModuleDirectory(endpointModuleName: string): string {
    "endpoint_modules/" + endpointModuleName
  }

  /** Routes a request to its module. Module lookup is not implemented, so every path
      ends in an error; `isDir` stands for the filesystem's directory test. */
  function ProcessRequestWithModule(unit: RequestUnit, isDir: string -> bool): (r: Result<RequestUnit>)
    ensures r.Err?
    ensures unit.endpointModuleName.None? ==> r.error == NoModuleMessage
    ensures unit.endpointModuleName.Some? && !isDir(ModuleDirectory(unit.endpointModuleName.value)) ==>
      r.error == NotFoundPrefix + unit.endpointModuleName.value
    ensures unit.endpointModuleName.Some? && isDir(ModuleDirectory(unit.endpointModuleName.value)) ==>
      r.error == PlaceholderMessage
  {
    match unit.endpointModuleName
    case None => Err(NoModuleMessage)
    case Some(endpointModuleName) =>
      if !isDir(ModuleDirectory(endpointModuleName)) then
        Err(NotFoundPrefix + endpointModuleName)
      else
        Err(PlaceholderMessage)
  }

  /** The three errors can be told apart, and a "not found" error names the module. */
  lemma ProcessErrorsDistinct(unit: RequestUnit, isDir: string -> bool)
    ensures var e := ProcessRequestWithModule(unit, isDir).error;
            (e == NoModuleMessage) <==> unit.endpointModuleName.None?
    ensures var e := ProcessRequestWithModule(unit, isDir).error;
            StartsWith(e, NotFoundPrefix) ==>
              unit.endpointModuleName.Some? && e[|NotFoundPrefix|..] == unit.endpointModuleName.value
  {
    var e := ProcessRequestWithModule(unit, isDir).error;
    assert NoModuleMessage[0] == 'N' && NotFoundPrefix[0] == 'E';
    assert |NoModuleMessage| != |PlaceholderMessage|;
    if unit.endpointModuleName.Some? {
      var name := unit.endpointModuleName.value;
      if !isDir(ModuleDirectory(name)) {
        assert e == NotFoundPrefix + name;
        assert e[0] == 'E';
      } else {
        assert PlaceholderMessage[..|NotFoundPrefix|] != NotFoundPrefix by {
          assert PlaceholderMessage[0] == 'N';
        }
      }
    }
  }

  /** The response text written for a result. */
  function ResponseText(result: Result<RequestUnit>): (r: string)
    ensures result.Ok? ==>
      StartsWith(r, "HTTP/1.1 " + Decimal(result.value.responseStatus.GetOr(DefaultStatus)) + " OK\r\n") &&
      BodyAfterHeaders(r) == result.value.responseBody.GetOr([])
    ensures result.Err? ==>
      StartsWith(r, "HTTP/1.1 500 ") && BodyAfterHeaders(r) == result.error
  {
    match result
    case Ok(processed) =>
      var status: nat := processed.responseStatus.GetOr(DefaultStatus);
      SuccessResponseBody(status, processed.responseBody.GetOr([]));
      SuccessResponse(status, processed.responseBody.GetOr([]))
    case Err(message) =>
      ErrorResponseBody(message);
      ErrorResponse(message)
  }

  /** The message the handler sends for one request: the processed request's id on
      success, the popped request's id on error. */
  function Emit(unit: RequestUnit, process: RequestUnit -> Result<RequestUnit>): Message {
    var r := process(unit);
    match r
    case Ok(processed) => (processed.id, r)
    case Err(message) => (unit.id, Err(message))
  }

  /** The messages the handler sends for `items`, processed in order. */
  function EmitAll(items: seq<RequestUnit>, process: RequestUnit -> Result<RequestUnit>): seq<Message> {
    if items == [] then []
    else EmitAll(items[..|items| - 1], process) + [Emit(items[|items| - 1], process)]
  }

  /** A processor that keeps a request's id whenever it succeeds. */
  ghost predicate PreservesId(process: RequestUnit -> Result<RequestUnit>) {
    forall u :: process(u).Ok? ==> process(u).value.id == u.id
  }

  /** Module processing preserves ids (it never succeeds). */
  lemma ProcessingPreservesId(isDir: string -> bool)
    ensures PreservesId(u => ProcessRequestWithModule(u, isDir))
  {
  }

  /** One message per item, in item order, each carrying its item's id and the
      processor's result for it. */
  lemma {:induction false} EmitAllMatchesItems(items: seq<RequestUnit>, process: RequestUnit -> Result<RequestUnit>)
    requires PreservesId(process)
    ensures |EmitAll(items, process)| == |items|
    ensures forall i :: 0 <= i < |items| ==>
      EmitAll(items, process)[i] == (items[i].id, process(items[i]))
  {
    if items != [] {
      var init := items[..|items| - 1];
      EmitAllMatchesItems(init, process);
      forall i | 0 <= i < |items| ensures EmitAll(items, process)[i] == (items[i].id, process(items[i])) {
        if i < |init| {
          assert items[i] == init[i];
        }
      }
    }
  }

  /** How many items a drain of `count` items processes before the fault at `fault`. */
  function ProcessedCount(count: nat, fault: Option<nat>): (n: nat)
    ensures n <= count
    ensures n < count <==> (fault.Some? && fault.value < count)
  {
    if fault.Some? && fault.value < count then fault.value else count
  }

  /** The request unit the accept loop builds for a POST whose body names an endpoint. */
  function NewRequestUnit(id: nat, body: string, endpointName: string, conn: Connection): RequestUnit {
    RequestUnit(id, Some(ModuleName(endpointName)), body, None, conn.peerAddr, None, None, None)
  }

  /** The admission is the one the parsed request calls for: nothing for a request
      that is not a POST, a slice panic for a body the endpoint slice cannot cut, and
      otherwise a unit with the body, the endpoint's module and the connection's peer. */
  predicate AdmitsAs(p: RequestParse, conn: Connection, outcome: Admission) {
    (outcome.NotPost? <==> p.Ignored?) && (outcome.SlicePanic? <==> p.SlicePanics?) &&
    (HasUnit(outcome) ==> p.Post? && outcome.unit == NewRequestUnit(outcome.unit.id, p.body, p.endpointName, conn))
  }

  /** The server's fields at one moment, as a value. */
  datatype Snapshot = Snapshot(
    state: HandlerState,
    queueCounter: nat,
    requestIdCounter: nat,
    streamMap: map<nat, Connection>,
    queue: Option<seq<RequestUnit>>,
    channel: seq<Message>)

  /** Every waiting connection's id was handed out already. */
  predicate Consistent(s: Snapshot) {
    forall id :: id in s.streamMap ==> id < s.requestIdCounter
  }

  /** Receiving one result: the oldest message leaves the channel and its id leaves the
      connection map; the response is written exactly when its connection is waiting,
      and an unknown id is missed; with nothing sent, the receive blocks and nothing
      changes. */
  function Receive(s: Snapshot): (r: (Delivery, Snapshot))
    ensures r.0 == Blocked <==> s.channel == []
    ensures s.channel == [] ==> r.1 == s
    ensures s.channel != [] ==>
      r.1 == s.(channel := s.channel[1..], streamMap := s.streamMap - {s.channel[0].0})
    ensures r.0.Written? ==>
      (s.channel != [] && s.channel[0].0 in s.streamMap &&
       r.0.conn == s.streamMap[s.channel[0].0] && r.0.response == ResponseText(s.channel[0].1))
    ensures s.channel != [] ==> (r.0.Written? <==> s.channel[0].0 in s.streamMap)
    ensures s.channel != [] && s.channel[0].0 !in s.streamMap ==> r.0 == Missed(s.channel[0].0)
    ensures Consistent(s) ==> Consistent(r.1)
  {
    if s.channel == [] then (Blocked, s)
    else
      var id := s.channel[0].0;
      var s' := s.(channel := s.channel[1..], streamMap := s.streamMap - {id});
      if id in s.streamMap then (Written(s.streamMap[id], ResponseText(s.channel[0].1)), s')
      else (Missed(id), s')
  }

  /** The accept loop's work on one connection up to the Failed check, on the server
      `s` for the parsed request `p`: the connection's queue is reset; a POST takes the
      next id and registers the connection, then an idle server dispatches it with the
      (empty) queue, and a failed one queues it below capacity or drops it. */
  function Admit(s: Snapshot, p: RequestParse, conn: Connection): (Admission, Snapshot) {
    var s1 := s.(queue := Some([]));
    match p
    case Ignored => (NotPost, s1)
    case SlicePanics => (SlicePanic, s1.(requestIdCounter := s.requestIdCounter + 1))
    case Post(body, endpointName) =>
      var unit := NewRequestUnit(s.requestIdCounter, body, endpointName, conn);
      Placement(s1.(requestIdCounter := s.requestIdCounter + 1, streamMap := s.streamMap[unit.id := conn]), unit)
  }

  /** Where a registered request goes: an idle server hands it to a new handler with
      the connection's (empty) queue, leaving no queue and a zero counter; a failed one
      queues it below capacity and drops it at capacity, counting either way. */
  function Placement(s: Snapshot, unit: RequestUnit): (Admission, Snapshot) {
    if s.state == Idle then
      (Dispatched(unit, []), s.(queue := None, queueCounter := 0))
    else if s.queueCounter < MaxQueueSize then
      (Queued(unit), s.(queue := Some([unit]), queueCounter := s.queueCounter + 2))
    else
      (Dropped(unit), s.(queueCounter := s.queueCounter + 1))
  }

  /** What admitting a request does to the server: a request that is not a POST only
      resets the queue; any other uses up the current id; a POST's id is new to the
      connection map, which gains exactly that entry; an idle server dispatches with the
      queue slot emptied and the counter at 0, a failed one queues (counter + 2) below
      capacity and drops (counter + 1) at it. */
  lemma AdmitEffects(s: Snapshot, p: RequestParse, conn: Connection)
    requires Consistent(s)
    ensures var a := Admit(s, p, conn);
      Consistent(a.1) && a.1.state == s.state && a.1.channel == s.channel &&
      a.1.requestIdCounter == s.requestIdCounter + (if p.Ignored? then 0 else 1) &&
      (!p.Post? ==>
        a.0 == (if p.Ignored? then NotPost else SlicePanic) &&
        a.1.queue == Some([]) && a.1.queueCounter == s.queueCounter && a.1.streamMap == s.streamMap) &&
      (p.Post? ==>
        var unit := NewRequestUnit(s.requestIdCounter, p.body, p.endpointName, conn);
        unit.id !in s.streamMap && a.1.streamMap == s.streamMap[unit.id := conn] &&
        (s.state == Idle ==> a.0 == Dispatched(unit, []) && a.1.queue == None && a.1.queueCounter == 0) &&
        (s.state != Idle && s.queueCounter < MaxQueueSize ==>
          a.0 == Queued(unit) && a.1.queue == Some([unit]) && a.1.queueCounter == s.queueCounter + 2) &&
        (s.state != Idle && s.queueCounter >= MaxQueueSize ==>
          a.0 == Dropped(unit) && a.1.queue == Some([]) && a.1.queueCounter == s.queueCounter + 1))
  {
  }

  /** The rest of a turn after admission, on the admitted server `s`: a handler spawned
      by a dispatch processes the request alone (a panic at `fault == Some(0)` restarts
      the loop) and the loop receives one result; a queued or dropped request restarts
      the loop; a request that is not a POST goes straight to the receive. */
  function Complete(s: Snapshot, outcome: Admission, isDir: string -> bool, fault: Option<nat>): (Delivery, Snapshot) {
    match outcome
    case NotPost => Receive(s)
    case SlicePanic => (Skipped, s)
    case Dispatched(unit, _) =>
      if fault == Some(0) then (Skipped, s.(state := Failed, streamMap := map[], channel := []))
      else Receive(s.(channel := s.channel + [(unit.id, ProcessRequestWithModule(unit, isDir))]))
    case Queued(_) => (Skipped, s.(streamMap := map[], channel := []))
    case Dropped(_) => (Skipped, s.(streamMap := map[], channel := []))
  }

  /** One turn of the accept loop on the server `s` for the parsed request `p`: what it
      admits, what it writes and the server after it. */
  function Turn(s: Snapshot, p: RequestParse, conn: Connection, isDir: string -> bool, fault: Option<nat>)
    : (Admission, Delivery, Snapshot)
  {
    var a := Admit(s, p, conn);
    var c := Complete(a.1, a.0, isDir, fault);
    (a.0, c.0, c.1)
  }

  /** The connections' requests, parsed. */
  function ParseAll(connections: seq<(string, Connection)>): (turns: seq<(RequestParse, Connection)>)
    ensures |turns| == |connections|
    ensures forall i :: 0 <= i < |connections| ==>
      turns[i].0 == ParseRequest(connections[i].0) && turns[i].1 == connections[i].1
  {
    seq(|connections|, i requires 0 <= i < |connections| => (ParseRequest(connections[i].0), connections[i].1))
  }

  /** The accept loop over a run of turns, each with the fault its handler meets. The
      run ends early when slicing an endpoint name panics, which ends the process, or
      when the receive blocks: no handler is left to send a result, so the loop never
      accepts another connection. */
  function Run(s: Snapshot, turns: seq<(RequestParse, Connection)>, isDir: string -> bool, faults: seq<Option<nat>>)
    : (r: (seq<Admission>, seq<Delivery>, Snapshot))
    requires |faults| == |turns|
    ensures |r.0| == |r.1| <= |turns|
    decreases |turns|
  {
    if turns == [] then ([], [], s)
    else
      var t := Turn(s, turns[0].0, turns[0].1, isDir, faults[0]);
      if t.0.SlicePanic? || t.1 == Blocked then ([t.0], [t.1], t.2)
      else
        var rest := Run(t.2, turns[1..], isDir, faults[1..]);
        ([t.0] + rest.0, [t.1] + rest.1, rest.2)
  }

  // ---- one turn ----

  /** A turn admits what its request calls for, under the id the server held, and uses
      up an id exactly when the request is a POST. */
  lemma TurnAdmits(s: Snapshot, p: RequestParse, conn: Connection, isDir: string -> bool, fault: Option<nat>)
    ensures var t := Turn(s, p, conn, isDir, fault);
      AdmitsAs(p, conn, t.0) &&
      (HasUnit(t.0) ==> t.0.unit.id == s.requestIdCounter) &&
      t.2.requestIdCounter == s.requestIdCounter + (if t.0.NotPost? then 0 else 1)
  {
  }

  /** Dispatch happens exactly on an idle server; a failed server stays failed, so once a
      handler has panicked no request is dispatched again. */
  lemma TurnKeepsFailed(s: Snapshot, p: RequestParse, conn: Connection, isDir: string -> bool, fault: Option<nat>)
    ensures var t := Turn(s, p, conn, isDir, fault);
      (t.0.Dispatched? <==> p.Post? && s.state == Idle) &&
      (t.2.state == Failed <==> s.state == Failed || (t.0.Dispatched? && fault == Some(0)))
  {
  }

  /** The queue counter: reset to 0 by a dispatch, raised by 2 for a queued request and
      by 1 for a dropped one, unchanged otherwise; a request is queued only below
      capacity, and then it is the queue's only item. */
  lemma TurnQueueCounter(s: Snapshot, p: RequestParse, conn: Connection, isDir: string -> bool, fault: Option<nat>)
    ensures var t := Turn(s, p, conn, isDir, fault);
      t.2.queueCounter == (match t.0
        case Dispatched(_, _) => 0
        case Queued(_) => s.queueCounter + 2
        case Dropped(_) => s.queueCounter + 1
        case _ => s.queueCounter) &&
      (t.0.Queued? <==> p.Post? && s.state == Failed && s.queueCounter < MaxQueueSize) &&
      (t.0.Queued? ==> t.2.queue == Some([t.0.unit]))
  {
  }

  /** A queued or dropped request, or a handler panic, restarts the loop: nobody answers
      and nothing of the old connection map or channel survives. */
  lemma TurnRestarts(s: Snapshot, p: RequestParse, conn: Connection, isDir: string -> bool, fault: Option<nat>)
    ensures var t := Turn(s, p, conn, isDir, fault);
      (t.0.Queued? || t.0.Dropped? || (t.0.Dispatched? && fault == Some(0))) ==>
        t.1 == Skipped && t.2.streamMap == map[] && t.2.channel == []
  {
  }

  /** The receive blocks exactly when nothing was admitted and no result was pending;
      a turn that starts with no pending result ends with none. */
  lemma TurnBlocks(s: Snapshot, p: RequestParse, conn: Connection, isDir: string -> bool, fault: Option<nat>)
    ensures var t := Turn(s, p, conn, isDir, fault);
      (t.1 == Blocked <==> t.0.NotPost? && s.channel == []) &&
      (s.channel == [] ==> t.2.channel == [])
  {
  }

  /** On an idle server with no pending result and no handler panic, a POST is answered
      on its own connection with the 500 response of its module error, and the
      connection map ends as it began. */
  lemma TurnAnswersOwnConnection(s: Snapshot, p: RequestParse, conn: Connection, isDir: string -> bool, fault: Option<nat>)
    requires Consistent(s)
    requires s.state == Idle && s.channel == [] && fault != Some(0) && p.Post?
    ensures var t := Turn(s, p, conn, isDir, fault);
      t.0.Dispatched? && t.2.state == Idle && t.2.streamMap == s.streamMap && t.2.channel == [] &&
      t.1 == Written(conn, ErrorResponse(ProcessRequestWithModule(t.0.unit, isDir).error))
  {
    var id := s.requestIdCounter;
    assert id !in s.streamMap;
    assert s.streamMap[id := conn] - {id} == s.streamMap;
  }

  /** A turn keeps every waiting connection's id below the id counter. */
  lemma TurnConsistent(s: Snapshot, p: RequestParse, conn: Connection, isDir: string -> bool, fault: Option<nat>)
    requires Consistent(s)
    ensures Consistent(Turn(s, p, conn, isDir, fault).2)
  {
  }

  // ---- a run of turns ----

  /** Only unfolds `Run` once, as a proof step for `Serve` and the quiet-start lemmas;
      it states nothing beyond `Run`'s definition. */
  lemma RunStep(s: Snapshot, turns: seq<(RequestParse, Connection)>, isDir: string -> bool, faults: seq<Option<nat>>,
                a: Admission, d: Delivery, s': Snapshot)
    requires |faults| == |turns| && turns != []
    requires (a, d, s') == Turn(s, turns[0].0, turns[0].1, isDir, faults[0])
    ensures var r := Run(s, turns, isDir, faults);
      if a.SlicePanic? || d == Blocked then r == ([a], [d], s')
      else
        var rest := Run(s', turns[1..], isDir, faults[1..]);
        r == ([a] + rest.0, [d] + rest.1, rest.2)
  {
  }

  /** Moving one element from the front of a suffix to the back of a prefix. */
  lemma ShiftOne<T>(xs: seq<T>, x: T, rest: seq<T>)
    ensures xs + ([x] + rest) == (xs + [x]) + rest
  {
  }

  /** A run stops early only at a slice panic or a blocked receive, and no turn before
      the last is either. */
  lemma {:induction false} RunStops(s: Snapshot, turns: seq<(RequestParse, Connection)>, isDir: string -> bool, faults: seq<Option<nat>>)
    requires |faults| == |turns|
    ensures var r := Run(s, turns, isDir, faults);
      (|r.0| < |turns| ==> r.0 != [] && (r.0[|r.0| - 1].SlicePanic? || r.1[|r.0| - 1] == Blocked)) &&
      (forall i :: 0 <= i < |r.0| - 1 ==> !r.0[i].SlicePanic? && r.1[i] != Blocked)
    decreases |turns|
  {
    if turns != [] {
      var t := Turn(s, turns[0].0, turns[0].1, isDir, faults[0]);
      RunStep(s, turns, isDir, faults, t.0, t.1, t.2);
      if !(t.0.SlicePanic? || t.1 == Blocked) {
        RunStops(t.2, turns[1..], isDir, faults[1..]);
        var rest := Run(t.2, turns[1..], isDir, faults[1..]);
        StopsOnlyAtEnd(t.0, t.1, |turns| - 1, rest.0, rest.1);
      }
    }
  }

  /** A step of the induction above: prepending a turn that neither panics nor blocks
      to a run of at most n turns that stops only at its end. */
  lemma StopsOnlyAtEnd(a: Admission, d: Delivery, n: nat, outcomes: seq<Admission>, deliveries: seq<Delivery>)
    requires |outcomes| == |deliveries|
    requires !(a.SlicePanic? || d == Blocked)
    requires |outcomes| < n ==>
      outcomes != [] && (outcomes[|outcomes| - 1].SlicePanic? || deliveries[|outcomes| - 1] == Blocked)
    requires forall i :: 0 <= i < |outcomes| - 1 ==> !outcomes[i].SlicePanic? && deliveries[i] != Blocked
    ensures var os, ds := [a] + outcomes, [d] + deliveries;
      (|os| < n + 1 ==> os != [] && (os[|os| - 1].SlicePanic? || ds[|os| - 1] == Blocked)) &&
      (forall i :: 0 <= i < |os| - 1 ==> !os[i].SlicePanic? && ds[i] != Blocked)
  {
    var os, ds := [a] + outcomes, [d] + deliveries;
    if outcomes != [] {
      assert os[|os| - 1] == outcomes[|outcomes| - 1] && ds[|os| - 1] == deliveries[|outcomes| - 1];
    }
    forall i | 1 <= i < |os| - 1
      ensures !os[i].SlicePanic? && ds[i] != Blocked
    {
      assert os[i] == outcomes[i - 1] && ds[i] == deliveries[i - 1];
    }
  }

  /** Each outcome of a run is the one its own turn's request calls for, and the
      admitted requests get strictly increasing ids from the ones not yet handed out. */
  lemma {:induction false} RunAdmits(s: Snapshot, turns: seq<(RequestParse, Connection)>, isDir: string -> bool, faults: seq<Option<nat>>)
    requires |faults| == |turns|
    ensures var r := Run(s, turns, isDir, faults);
      s.requestIdCounter <= r.2.requestIdCounter &&
      (forall i :: 0 <= i < |r.0| ==> AdmitsAs(turns[i].0, turns[i].1, r.0[i])) &&
      (forall i :: 0 <= i < |r.0| && HasUnit(r.0[i]) ==>
        s.requestIdCounter <= r.0[i].unit.id < r.2.requestIdCounter) &&
      (forall i, j :: 0 <= i < j < |r.0| && HasUnit(r.0[i]) && HasUnit(r.0[j]) ==>
        r.0[i].unit.id < r.0[j].unit.id)
    decreases |turns|
  {
    if turns != [] {
      var t := Turn(s, turns[0].0, turns[0].1, isDir, faults[0]);
      TurnAdmits(s, turns[0].0, turns[0].1, isDir, faults[0]);
      if !(t.0.SlicePanic? || t.1 == Blocked) {
        RunAdmits(t.2, turns[1..], isDir, faults[1..]);
        var rest := Run(t.2, turns[1..], isDir, faults[1..]);
        var outcomes := [t.0] + rest.0;
        assert Run(s, turns, isDir, faults).0 == outcomes;
        forall i | 1 <= i < |outcomes|
          ensures AdmitsAs(turns[i].0, turns[i].1, outcomes[i])
          ensures HasUnit(outcomes[i]) ==> t.2.requestIdCounter <= outcomes[i].unit.id < rest.2.requestIdCounter
        {
          assert outcomes[i] == rest.0[i - 1] && turns[i] == turns[1..][i - 1];
        }
      }
    }
  }

  /** A run on a failed server dispatches nothing and leaves it failed. */
  lemma {:induction false} RunKeepsFailed(s: Snapshot, turns: seq<(RequestParse, Connection)>, isDir: string -> bool, faults: seq<Option<nat>>)
    requires |faults| == |turns|
    requires s.state == Failed
    ensures var r := Run(s, turns, isDir, faults);
      r.2.state == Failed && forall i :: 0 <= i < |r.0| ==> !r.0[i].Dispatched?
    decreases |turns|
  {
    if turns != [] {
      var t := Turn(s, turns[0].0, turns[0].1, isDir, faults[0]);
      TurnKeepsFailed(s, turns[0].0, turns[0].1, isDir, faults[0]);
      if !(t.0.SlicePanic? || t.1 == Blocked) {
        RunKeepsFailed(t.2, turns[1..], isDir, faults[1..]);
      }
    }
  }

  /** From a start with no pending result, a delivery blocks exactly for a request
      that is not a POST, so the first such request ends the run, and no result is
      pending at the end. */
  lemma {:induction false} RunFromQuietStart(s: Snapshot, turns: seq<(RequestParse, Connection)>, isDir: string -> bool, faults: seq<Option<nat>>)
    requires |faults| == |turns|
    requires s.channel == []
    ensures var r := Run(s, turns, isDir, faults);
      r.2.channel == [] &&
      (forall i :: 0 <= i < |r.0| ==> (r.1[i] == Blocked <==> r.0[i].NotPost?))
    decreases |turns|
  {
    if turns != [] {
      var t := Turn(s, turns[0].0, turns[0].1, isDir, faults[0]);
      TurnBlocks(s, turns[0].0, turns[0].1, isDir, faults[0]);
      RunStep(s, turns, isDir, faults, t.0, t.1, t.2);
      if !(t.0.SlicePanic? || t.1 == Blocked) {
        RunFromQuietStart(t.2, turns[1..], isDir, faults[1..]);
        var rest := Run(t.2, turns[1..], isDir, faults[1..]);
        BlocksOnlyOnNonPost(t.0, t.1, rest.0, rest.1);
      }
    }
  }

  /** A step of the induction above: prepending a turn whose delivery blocks exactly
      when it is not a POST keeps that true of every turn. */
  lemma BlocksOnlyOnNonPost(a: Admission, d: Delivery, outcomes: seq<Admission>, deliveries: seq<Delivery>)
    requires |outcomes| == |deliveries|
    requires d == Blocked <==> a.NotPost?
    requires forall i :: 0 <= i < |outcomes| ==> (deliveries[i] == Blocked <==> outcomes[i].NotPost?)
    ensures var os, ds := [a] + outcomes, [d] + deliveries;
      forall i :: 0 <= i < |os| ==> (ds[i] == Blocked <==> os[i].NotPost?)
  {
    var os, ds := [a] + outcomes, [d] + deliveries;
    forall i | 1 <= i < |os|
      ensures ds[i] == Blocked <==> os[i].NotPost?
    {
      assert os[i] == outcomes[i - 1] && ds[i] == deliveries[i - 1];
    }
  }

  /** From a start with no pending result, every turn of a run before the last admits
      a request: neither a slice panic nor a request that is not a POST lets the run
      go on. */
  lemma RunAdmitsBeforeLast(s: Snapshot, turns: seq<(RequestParse, Connection)>, isDir: string -> bool, faults: seq<Option<nat>>)
    requires |faults| == |turns|
    requires s.channel == []
    ensures var r := Run(s, turns, isDir, faults);
      forall i :: 0 <= i < |r.0| - 1 ==> HasUnit(r.0[i])
  {
    RunStops(s, turns, isDir, faults);
    RunFromQuietStart(s, turns, isDir, faults);
  }

  /** From a start with no pending result, the i-th turn of a run that admits a request
      gives it the starting id + i: ids are handed out without gaps. */
  lemma {:induction false} RunIdsFromQuietStart(s: Snapshot, turns: seq<(RequestParse, Connection)>, isDir: string -> bool, faults: seq<Option<nat>>)
    requires |faults| == |turns|
    requires s.channel == []
    ensures var r := Run(s, turns, isDir, faults);
      forall i :: 0 <= i < |r.0| && HasUnit(r.0[i]) ==> r.0[i].unit.id == s.requestIdCounter + i
    decreases |turns|
  {
    if turns != [] {
      var t := Turn(s, turns[0].0, turns[0].1, isDir, faults[0]);
      TurnAdmits(s, turns[0].0, turns[0].1, isDir, faults[0]);
      TurnBlocks(s, turns[0].0, turns[0].1, isDir, faults[0]);
      RunStep(s, turns, isDir, faults, t.0, t.1, t.2);
      if !(t.0.SlicePanic? || t.1 == Blocked) {
        assert t.2.requestIdCounter == s.requestIdCounter + 1;
        RunIdsFromQuietStart(t.2, turns[1..], isDir, faults[1..]);
        var rest := Run(t.2, turns[1..], isDir, faults[1..]);
        var outcomes := [t.0] + rest.0;
        assert Run(s, turns, isDir, faults).0 == outcomes;
        forall i | 1 <= i < |outcomes| && HasUnit(outcomes[i])
          ensures outcomes[i].unit.id == s.requestIdCounter + i
        {
          assert outcomes[i] == rest.0[i - 1];
        }
      }
    }
  }

  class Server {
    /** The handler state; only a handler panic ever writes it. */
    var state: HandlerState
    /** Counts requests seen while the handler is not idle. */
    var queueCounter: nat
    /** The id the next POST receives. */
    var requestIdCounter: nat
    /** The connections waiting for a response, by request id. */
    var streamMap: map<nat, Connection>
    /** The handoff queue of the connection being handled. */
    var queue: Option<seq<RequestUnit>>
    /** The results sent by handlers and not yet received. */
    var channel: seq<Message>

    /** The fields as a value. */
    function Snap(): Snapshot
      reads this
    {
      Snapshot(state, queueCounter, requestIdCounter, streamMap, queue, channel)
    }

    /** Every waiting connection's id was handed out already. */
    ghost predicate Valid()
      reads this
    {
      Consistent(Snap())
    }

    /** The server at process start: idle, counters at zero, nothing pending. */
    constructor ()
      ensures Valid()
      ensures state == Idle && queueCounter == 0 && requestIdCounter == 0
      ensures streamMap == map[] && queue == None && channel == []
    {
      state := Idle;
      queueCounter := 0;
      requestIdCounter := 0;
      streamMap := map[];
      queue := None;
      channel := [];
    }

    /** The accept loop's work on one connection up to the Failed check: recognise a
        POST, cut the body, assign the next id, name the endpoint's module, register the
        connection, then dispatch to a new handler (Idle) or queue or drop (not Idle). */
    method Accept(request: string, conn: Connection) returns (outcome: Admission)
      requires Valid()
      modifies this
      ensures Valid()
      ensures outcome == Admit(old(Snap()), ParseRequest(request), conn).0
      ensures Snap() == Admit(old(Snap()), ParseRequest(request), conn).1
    {
      ghost var p := ParseRequest(request);
      AdmitEffects(Snap(), p, conn);
      queue := Some([]);
      if !IsPost(request) {
        assert p == Ignored;
        return NotPost;
      }
      var requestBody := BodyAfterHeaders(request);
      var requestId := requestIdCounter;
      requestIdCounter := requestIdCounter + 1;
      var endpointName := EndpointName(requestBody);
      if endpointName.None? {
        assert p == SlicePanics;
        return SlicePanic;
      }
      assert p == Post(requestBody, endpointName.value);
      var requestUnit := NewRequestUnit(requestId, requestBody, endpointName.value, conn);
      streamMap := streamMap[requestId := conn];
      outcome := Place(requestUnit);
    }

    /** The Idle check of one connection: dispatch to a new handler when Idle, and
        otherwise add to the connection's queue below capacity; the queue counter rises
        on both paths of the not-Idle branch. */
    method Place(requestUnit: RequestUnit) returns (outcome: Admission)
      requires queue == Some([])
      modifies this
      ensures (outcome, Snap()) == Placement(old(Snap()), requestUnit)
    {
      if state == Idle {
        var handoff := queue.value;
        queue := None;
        outcome := Dispatched(requestUnit, handoff);
        queueCounter := 0;
      } else {
        outcome := Dropped(requestUnit);
        if queue.Some? {
          if queueCounter < MaxQueueSize {
            assert queue.value + [requestUnit] == [requestUnit];
            queue := Some(queue.value + [requestUnit]);
            queueCounter := queueCounter + 1;
            outcome := Queued(requestUnit);
          }
        }
        queueCounter := queueCounter + 1;
      }
    }

    /** A handler: push the initial request to the back of the queue, then pop and
        process items front first, sending one message per item. A panic while
        processing the item at index `fault` marks the handler Failed and abandons
        the rest of the queue. */
    method Drain(initial: RequestUnit, handoff: seq<RequestUnit>,
                 process: RequestUnit -> Result<RequestUnit>, fault: Option<nat>)
      modifies this
      ensures var items := handoff + [initial];
              var n := ProcessedCount(|items|, fault);
              channel == old(channel) + EmitAll(items[..n], process) &&
              state == (if n < |items| then Failed else old(state))
      ensures queueCounter == old(queueCounter) && requestIdCounter == old(requestIdCounter)
      ensures streamMap == old(streamMap) && queue == old(queue)
    {
      var disposableHandoffQueue := handoff;
      disposableHandoffQueue := disposableHandoffQueue + [initial];
      ghost var items := disposableHandoffQueue;
      var popped := 0;
      while disposableHandoffQueue != []
        invariant 0 <= popped <= |items|
        invariant disposableHandoffQueue == items[popped..]
        invariant channel == old(channel) + EmitAll(items[..popped], process)
        invariant popped <= ProcessedCount(|items|, fault)
        invariant state == old(state)
        invariant queueCounter == old(queueCounter) && requestIdCounter == old(requestIdCounter)
        invariant streamMap == old(streamMap) && queue == old(queue)
        decreases |disposableHandoffQueue|
      {
        var requestUnit := disposableHandoffQueue[0];
        disposableHandoffQueue := disposableHandoffQueue[1..];
        if fault == Some(popped) {
          state := Failed;
          return;
        }
        var message := match process(requestUnit)
          case Ok(processed) => (processed.id, Ok(processed))
          case Err(errorMessage) => (requestUnit.id, Err(errorMessage));
        assert items[..popped + 1][..popped] == items[..popped];
        channel := channel + [message];
        popped := popped + 1;
      }
    }

    /** Receive the oldest message and answer its connection: the entry for its id
        leaves the map and the response is written there; an id nobody waits for is
        dropped; with nothing sent, `recv` blocks. */
    method RouteNext() returns (d: Delivery)
      requires Valid()
      modifies this
      ensures Valid()
      ensures (d, Snap()) == Receive(old(Snap()))
    {
      if channel == [] {
        return Blocked;
      }
      var (requestId, result) := channel[0];
      channel := channel[1..];
      if requestId in streamMap {
        var stream := streamMap[requestId];
        streamMap := streamMap - {requestId};
        d := Written(stream, ResponseText(result));
      } else {
        streamMap := streamMap - {requestId};
        d := Missed(requestId);
      }
    }

    /** The outer loop's restart: a fresh listener, channel and connection map. The
        handler state and both counters are left as they are. */
    method Restart()
      modifies this
      ensures streamMap == map[] && channel == []
      ensures Valid()
      ensures state == old(state) && queue == old(queue)
      ensures queueCounter == old(queueCounter) && requestIdCounter == old(requestIdCounter)
    {
      streamMap := map[];
      channel := [];
    }

    /** One turn of the accept loop, as `Turn` describes it. The handler a dispatch
        spawns runs until its queue is empty before the loop goes on; when the loop then
        sees Failed it leaves and the outer loop restarts it, otherwise it receives one
        result. */
    method ServeOne(request: string, conn: Connection, isDir: string -> bool, fault: Option<nat>)
      returns (outcome: Admission, d: Delivery)
      requires Valid()
      modifies this
      ensures Valid()
      ensures (outcome, d, Snap()) == Turn(old(Snap()), ParseRequest(request), conn, isDir, fault)
    {
      outcome := Accept(request, conn);
      AdmitEffects(old(Snap()), ParseRequest(request), conn);
      d := Finish(outcome, isDir, fault);
    }

    /** The turn after the Failed check's input is known: a request that is not a POST
        goes straight to the receive, a slice panic ends the turn, a dispatched request
        is handled and routed, and a queued or dropped one restarts the loop. */
    method Finish(outcome: Admission, isDir: string -> bool, fault: Option<nat>) returns (d: Delivery)
      requires Valid()
      requires outcome.Dispatched? ==> outcome.handoff == [] && state == Idle
      modifies this
      ensures Valid()
      ensures (d, Snap()) == Complete(old(Snap()), outcome, isDir, fault)
    {
      match outcome
      case NotPost =>
        d := RouteNext();
      case SlicePanic =>
        d := Skipped;
      case Dispatched(unit, handoff) =>
        d := HandleThenRoute(unit, isDir, fault);
      case Queued(_) =>
        Restart();
        d := Skipped;
      case Dropped(_) =>
        Restart();
        d := Skipped;
    }

    /** The rest of a turn after a dispatch: the spawned handler drains its queue, then
        the loop restarts if the handler failed and otherwise receives one result. */
    method HandleThenRoute(unit: RequestUnit, isDir: string -> bool, fault: Option<nat>)
      returns (d: Delivery)
      requires Valid()
      modifies this
      ensures Valid()
      ensures queueCounter == old(queueCounter) && requestIdCounter == old(requestIdCounter) && queue == old(queue)
      ensures state == (if fault == Some(0) then Failed else old(state))
      ensures state == Failed ==> d == Skipped && streamMap == map[] && channel == []
      ensures old(state) == Idle ==>
        (d, Snap()) == Complete(old(Snap()), Dispatched(unit, []), isDir, fault)
    {
      var process := u => ProcessRequestWithModule(u, isDir);
      Drain(unit, [], process, fault);
      if state == Failed {
        Restart();
        return Skipped;
      }
      ghost var items: seq<RequestUnit> := [] + [unit];
      assert items == [unit];
      ProcessingPreservesId(isDir);
      EmitAllMatchesItems(items, process);
      assert channel == old(channel) + [(unit.id, process(unit))];
      d := RouteNext();
    }

    /** The accept loop over a run of connections, as `Run` describes it. */
    method Serve(connections: seq<(string, Connection)>, isDir: string -> bool, faults: seq<Option<nat>>)
      returns (outcomes: seq<Admission>, deliveries: seq<Delivery>)
      requires Valid()
      requires |faults| == |connections|
      modifies this
      ensures Valid()
      ensures (outcomes, deliveries, Snap()) == Run(old(Snap()), ParseAll(connections), isDir, faults)
    {
      ghost var turns := ParseAll(connections);
      outcomes, deliveries := [], [];
      var i := 0;
      assert turns[i..] == turns && faults[i..] == faults;
      assert [] + Run(Snap(), turns, isDir, faults).0 == Run(Snap(), turns, isDir, faults).0;
      assert [] + Run(Snap(), turns, isDir, faults).1 == Run(Snap(), turns, isDir, faults).1;
      while i < |connections|
        invariant 0 <= i <= |connections|
        invariant Valid()
        invariant var r := Run(Snap(), turns[i..], isDir, faults[i..]);
          Run(old(Snap()), turns, isDir, faults) == (outcomes + r.0, deliveries + r.1, r.2)
      {
        var (request, conn) := connections[i];
        ghost var s0 := Snap();
        assert turns[i..][0] == (ParseRequest(request), conn) && faults[i..][0] == faults[i];
        assert turns[i..][1..] == turns[i + 1..] && faults[i..][1..] == faults[i + 1..];
        var outcome, d := ServeOne(request, conn, isDir, faults[i]);
        RunStep(s0, turns[i..], isDir, faults[i..], outcome, d, Snap());
        if outcome.SlicePanic? || d == Blocked {
          outcomes, deliveries := outcomes + [outcome], deliveries + [d];
          return;
        }
        ghost var rest := Run(Snap(), turns[i + 1..], isDir, faults[i + 1..]);
        ShiftOne(outcomes, outcome, rest.0);
        ShiftOne(deliveries, d, rest.1);
        outcomes, deliveries := outcomes + [outcome], deliveries + [d];
        i := i + 1;
      }
      assert turns[i..] == [] && faults[i..] == [];
      assert outcomes + [] == outcomes && deliveries + [] == deliveries;
    }
  }
}
