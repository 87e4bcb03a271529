/**
 * The client side of trust_sockets/rpc.py: RPCClient with its connection
 * flag, its listener task and its table of pending futures. Each method is
 * the sequential effect of one step of the coroutines of rpc.py; how the
 * event loop interleaves them is not modelled.
 */
module Client {
  import opened Base
  import opened Framing
  import opened Handshake
  import opened Values
  import opened Services
  import opened Dispatcher

  /** Why a future failed: RuntimeError(response["error"]) for a remote
      error, or the exception the listener caught. */
  datatype FutureError = RemoteError(error: Value) | LocalError(fault: Fault)

  datatype FutureState = Pending | Resolved(result: Value) | Failed(reason: FutureError) | Cancelled {
    /** asyncio.Future.done(). */
    predicate Done()
    {
      !Pending?
    }
  }

  /** The asyncio future a caller of _async_call waits on. */
  class Future {
    var state: FutureState

    constructor ()
      ensures state == Pending
    {
      state := Pending;
    }
  }

  /** A request frame's payload: json.dumps(...).encode("utf-8"). */
  type Sendable = s: seq<byte> | |s| < MaxPayload

  /** The request dict _async_call sends (rpc.py:139-144). */
  function RequestRecord(id: string, methodName: string, args: seq<Value>, kwargs: seq<(string, Value)>)
    : Value
  {
    Obj([("type", Str("rpc")), ("id", Str(id)), ("method", Str(methodName)),
         ("params", Obj([("args", Arr(args)), ("kwargs", Obj(kwargs))]))])
  }

  /** `request_id = response.get("id")` and its use as a key of the table
      (rpc.py:115-116): the key, or what those two lines raise. */
  function ResponseKey(response: Value): (r: Result<Value, Fault>)
    ensures r.Success? <==> response.Obj? && Hashable(Get(response.entries, "id").GetOr(Null))
    ensures r.Success? ==> r.value == Get(response.entries, "id").GetOr(Null)
  {
    if !response.Obj? then Failure(NoAttribute(response, "get"))
    else
      var id := Get(response.entries, "id").GetOr(Null);
      if !Hashable(id) then Failure(Unhashable(id)) else Success(id)
  }

  /** What the matched future is set to (rpc.py:118-121): the error when it
      is truthy, the result otherwise. */
  function Settlement(response: Value): (r: FutureState)
    requires response.Obj?
    ensures r.Resolved? || r.Failed?
    ensures r.Failed? <==> Truthy(Get(response.entries, "error").GetOr(Null))
  {
    var error := Get(response.entries, "error").GetOr(Null);
    if Truthy(error) then Failed(RemoteError(error))
    else Resolved(Get(response.entries, "result").GetOr(Null))
  }

  /** str() of an IncompleteReadError. */
  function ReadFault(e: ReadError): Fault
  {
    Fault("IncompleteReadError", NatToString(|e.partial|) + " bytes read on a total of "
                                 + NatToString(e.expected) + " expected bytes")
  }

  /** Every future of `futures` is in state `s`. */
  ghost predicate AllIn(futures: set<Future>, s: FutureState)
    reads futures
  {
    forall f :: f in futures ==> f.state == s
  }

  /** The effect of one well-formed response on the table and its futures:
      a matching entry is removed and its future settled, nothing else
      changes; an unknown id changes nothing. */
  twostate predicate Routed(table: map<string, Future>, response: Value, new newTable: map<string, Future>)
    requires ResponseKey(response).Success?
    reads table.Values
  {
    var key := ResponseKey(response).value;
    if key.Str? && key.s in table then
      && newTable == table - {key.s}
      && table[key.s].state == Settlement(response)
      && forall f :: f in table.Values && f != table[key.s] ==> f.state == old(f.state)
    else
      && newTable == table
      && forall f :: f in table.Values ==> f.state == old(f.state)
  }

  /** The next response the listener reads (rpc.py:102-104): the payload
      of the next frame decoded, or what read_msg or json.loads raises. */
  function Incoming(inbound: seq<byte>, parse: seq<byte> -> Decoded): (r: Result<Value, Fault>)
    ensures DecodeFrame(inbound).Failure? ==> r == Failure(ReadFault(DecodeFrame(inbound).error))
  {
    match DecodeFrame(inbound)
    case Failure(e) => Failure(ReadFault(e))
    case Success((data, _)) =>
      match parse(data)
      case DecodeFailed(fault) => Failure(fault)
      case Decoded(response) => Success(response)
  }

  /** What is left to read after that: the bytes after the frame, or
      nothing once the stream has been read to its end. */
  function Remaining(inbound: seq<byte>): (r: seq<byte>)
    ensures DecodeFrame(inbound).Success? ==> |r| + HeaderSize <= |inbound|
    ensures DecodeFrame(inbound).Failure? ==> r == []
  {
    match DecodeFrame(inbound)
    case Failure(_) => []
    case Success((_, rest)) => rest
  }

  /** The exception that ends the listener at this read (rpc.py:107-113,
      115-116, 126-131), or none. */
  function ListenFault(inbound: seq<byte>, parse: seq<byte> -> Decoded): (r: Option<Fault>)
    ensures r.None? <==> Incoming(inbound, parse).Success? && ResponseKey(Incoming(inbound, parse).value).Success?
  {
    match Incoming(inbound, parse)
    case Failure(fault) => Some(fault)
    case Success(response) =>
      match ResponseKey(response)
      case Failure(fault) => Some(fault)
      case Success(_) => None
  }

  /** Removing a key from a table keeps every future stored under another. */
  lemma KeptValues(table: map<string, Future>, k: string)
    requires k in table
    ensures forall f :: f in table.Values && f != table[k] ==> f in (table - {k}).Values
  {
    forall f | f in table.Values && f != table[k]
      ensures f in (table - {k}).Values
    {
      var j :| j in table && table[j] == f;
      assert (table - {k})[j] == f;
    }
  }

  /** A whole frame is read as its payload decoded, and leaves the bytes
      after it. */
  lemma IncomingFrame(data: seq<byte>, rest: seq<byte>, parse: seq<byte> -> Decoded)
    requires |data| < MaxPayload
    ensures Incoming(EncodeFrame(data) + rest, parse)
         == match parse(data) case Decoded(v) => Success(v) case DecodeFailed(f) => Failure(f)
    ensures Remaining(EncodeFrame(data) + rest) == rest
  {
    DecodeEncode(data, rest);
  }

  /** The listener goes on after a whole frame exactly when its payload
      decodes to a dict whose id can be a key. */
  lemma ListenFaultFrame(data: seq<byte>, rest: seq<byte>, parse: seq<byte> -> Decoded)
    requires |data| < MaxPayload
    ensures ListenFault(EncodeFrame(data) + rest, parse).None? <==>
              && parse(data).Decoded?
              && parse(data).value.Obj?
              && Hashable(Get(parse(data).value.entries, "id").GetOr(Null))
  {
    IncomingFrame(data, rest, parse);
  }

  /** At the end of the stream, and inside a header cut short, the listener
      stops with the IncompleteReadError of its header read. */
  lemma ListenerStopsAtEnd(inbound: seq<byte>, parse: seq<byte> -> Decoded)
    requires |inbound| < HeaderSize
    ensures ListenFault(inbound, parse)
         == Some(Fault("IncompleteReadError", NatToString(|inbound|) + " bytes read on a total of "
                                              + NatToString(HeaderSize) + " expected bytes"))
  {
  }

  /** The final state of each future of `table` once the listener has run
      over `inbound` (rpc.py:100-131): the responses are routed one after
      the other, and the exception that stops the listener fails every
      future still waiting. */
  function Listened(inbound: seq<byte>, parse: seq<byte> -> Decoded, table: map<string, Future>)
    : (r: map<Future, FutureState>)
    ensures r.Keys == table.Values
    decreases |inbound|
  {
    match ListenFault(inbound, parse)
    case Some(fault) => map f | f in table.Values :: Failed(LocalError(fault))
    case None =>
      var response := Incoming(inbound, parse).value;
      var key := ResponseKey(response).value;
      if key.Str? && key.s in table then
        var rest := Listened(Remaining(inbound), parse, table - {key.s});
        KeptValues(table, key.s);
        assert table.Values == (table - {key.s}).Values + {table[key.s]};
        rest[table[key.s] := Settlement(response)]
      else
        Listened(Remaining(inbound), parse, table)
  }

  /** A table in which no future is stored under two ids. */
  predicate Injective(table: map<string, Future>)
  {
    forall a, b :: a in table && b in table && a != b ==> table[a] != table[b]
  }

  /** Listened after a read that stops the listener: every future fails
      with that exception. */
  lemma ListenedStops(inbound: seq<byte>, parse: seq<byte> -> Decoded, table: map<string, Future>)
    requires ListenFault(inbound, parse).Some?
    ensures forall f :: f in table.Values ==>
              Listened(inbound, parse, table)[f] == Failed(LocalError(ListenFault(inbound, parse).value))
  {
  }

  /** Listened after a response to a waiting id: that future ends with the
      response's settlement, and the others as the rest of the stream and
      the smaller table decide. */
  lemma ListenedRoutes(inbound: seq<byte>, parse: seq<byte> -> Decoded, table: map<string, Future>, k: string)
    requires Injective(table) && ListenFault(inbound, parse).None?
    requires ResponseKey(Incoming(inbound, parse).value) == Success(Str(k)) && k in table
    ensures table[k] !in (table - {k}).Values
    ensures Listened(inbound, parse, table)[table[k]] == Settlement(Incoming(inbound, parse).value)
    ensures forall f :: f in (table - {k}).Values ==>
              Listened(inbound, parse, table)[f] == Listened(Remaining(inbound), parse, table - {k})[f]
  {
  }

  /** Listened after a response to an id nobody waits for: nothing changes. */
  lemma ListenedIgnores(inbound: seq<byte>, parse: seq<byte> -> Decoded, table: map<string, Future>)
    requires ListenFault(inbound, parse).None?
    requires var key := ResponseKey(Incoming(inbound, parse).value).value; !(key.Str? && key.s in table)
    ensures Listened(inbound, parse, table) == Listened(Remaining(inbound), parse, table)
  {
  }

  /** Once the listener has stopped, no future of the table is pending. */
  lemma {:induction false} ListenedDone(inbound: seq<byte>, parse: seq<byte> -> Decoded,
                                        table: map<string, Future>)
    ensures forall f :: f in table.Values ==> Listened(inbound, parse, table)[f].Done()
    decreases |inbound|
  {
    if ListenFault(inbound, parse).None? {
      var key := ResponseKey(Incoming(inbound, parse).value).value;
      if key.Str? && key.s in table {
        ListenedDone(Remaining(inbound), parse, table - {key.s});
      } else {
        ListenedDone(Remaining(inbound), parse, table);
      }
    }
  }

  /** A frame that carries the reply to a waiting id ends that caller's
      future with the reply's settlement, whatever follows. */
  lemma ListenedReply(data: seq<byte>, rest: seq<byte>, parse: seq<byte> -> Decoded,
                      table: map<string, Future>, reply: Value, id: string)
    requires |data| < MaxPayload && parse(data) == Decoded(reply)
    requires ResponseKey(reply) == Success(Str(id)) && id in table
    ensures Listened(EncodeFrame(data) + rest, parse, table)[table[id]] == Settlement(reply)
  {
    IncomingFrame(data, rest, parse);
  }

  class RpcClient {
    const host: string
    const port: int
    /** The reader and writer of the open connection, if any. */
    var conn: Channel?
    var isConnected: bool
    var pendingFutures: map<string, Future>
    /** Whether _listen_task refers to a task. */
    var listenTask: bool

    /** Every entry of the table is still pending, no future is under two
        ids, and a connected client has a connection and a listener. */
    ghost predicate Valid()
      reads this, pendingFutures.Values
    {
      && (isConnected ==> conn != null)
      && listenTask == isConnected
      && (forall id :: id in pendingFutures ==> pendingFutures[id].state == Pending)
      && (forall a, b :: a in pendingFutures && b in pendingFutures && a != b ==>
                           pendingFutures[a] != pendingFutures[b])
    }

    /** RPCClient.__init__ (rpc.py:47-54). */
    constructor (host: string, port: int)
      ensures Valid()
      ensures this.host == host && this.port == port
      ensures conn == null && !isConnected && pendingFutures == map[] && !listenTask
    {
      this.host := host;
      this.port := port;
      conn := null;
      isConnected := false;
      pendingFutures := map[];
      listenTask := false;
    }

    /** RPCClient.connect (rpc.py:56-67) on the connection `newConn` that
        asyncio.open_connection returns. */
    method Connect(newConn: Channel, token: Option<string>, hash: seq<byte> -> Digest)
      returns (outcome: Outcome)
      requires Valid()
      modifies this, newConn
      ensures Valid()
      ensures pendingFutures == old(pendingFutures)
      ensures old(isConnected) ==> outcome == Trusted && unchanged(this) && unchanged(newConn)
      ensures !old(isConnected) ==>
                var run := ClientRun(token, hash, old(newConn.inbound));
                && outcome == run.outcome
                && conn == newConn
                && isConnected == (run.outcome == Trusted)
                && newConn.inbound == run.rest
                && newConn.outbound == old(newConn.outbound) + run.sent
                && newConn.closed == old(newConn.closed)
    {
      if isConnected {
        return Trusted;
      }
      conn := newConn;
      outcome := PerformClientHandshake(newConn, token, hash);
      if outcome.Refused? {
        return;
      }
      isConnected := true;
      listenTask := true;
    }

    /** The loops of rpc.py:90-93, 109-112 and 128-131: every future of the
        table that is not done is set to `final`, and the table is cleared. */
    method SettleAll(final: FutureState)
      requires Valid() && final.Done()
      modifies this`pendingFutures, pendingFutures.Values
      ensures Valid()
      ensures pendingFutures == map[]
      ensures AllIn(old(pendingFutures.Values), final)
    {
      var remaining := pendingFutures.Values;
      while remaining != {}
        invariant remaining <= old(pendingFutures.Values)
        invariant forall f :: f in remaining ==> f.state == Pending
        invariant forall f :: f in old(pendingFutures.Values) && f !in remaining ==> f.state == final
        decreases remaining
      {
        var f :| f in remaining;
        if !f.state.Done() {
          f.state := final;
        }
        remaining := remaining - {f};
      }
      pendingFutures := map[];
    }

    /** RPCClient.close (rpc.py:69-93); a client that is not connected is
        left as it is. */
    method Close()
      requires Valid()
      modifies this, conn, pendingFutures.Values
      ensures Valid()
      ensures !old(isConnected) ==>
                && unchanged(this)
                && (forall f :: f in old(pendingFutures.Values) ==> f.state == old(f.state))
                && (conn != null ==> unchanged(conn))
      ensures old(isConnected) ==>
                && !isConnected && !listenTask && pendingFutures == map[]
                && conn == old(conn) && conn.closed
                && conn.inbound == old(conn.inbound) && conn.outbound == old(conn.outbound)
                && AllIn(old(pendingFutures.Values), Cancelled)
    {
      if isConnected && conn != null {
        conn.Close();
        isConnected := false;
        if listenTask {
          listenTask := false;
        }
        SettleAll(Cancelled);
      }
    }

    /** The handling of one decoded response (rpc.py:115-121). Returns the
        exception raised when the response is not a dict or its id cannot
        be a key; the table is then untouched. */
    method HandleResponse(response: Value) returns (raised: Option<Fault>)
      requires Valid()
      modifies this`pendingFutures, pendingFutures.Values
      ensures Valid()
      ensures ResponseKey(response).Failure? ==>
                && raised == Some(ResponseKey(response).error)
                && pendingFutures == old(pendingFutures)
                && forall f :: f in old(pendingFutures.Values) ==> f.state == old(f.state)
      ensures ResponseKey(response).Success? ==>
                raised == None && Routed(old(pendingFutures), response, pendingFutures)
      ensures pendingFutures.Values <= old(pendingFutures.Values)
      ensures forall f :: f in old(pendingFutures.Values) && f !in pendingFutures.Values ==> f.state.Done()
    {
      if !response.Obj? {
        return Some(NoAttribute(response, "get"));
      }
      var requestId := Get(response.entries, "id").GetOr(Null);
      if !Hashable(requestId) {
        return Some(Unhashable(requestId));
      }
      raised := None;
      if requestId.Str? && requestId.s in pendingFutures {
        var future := pendingFutures[requestId.s];
        KeptValues(pendingFutures, requestId.s);
        pendingFutures := pendingFutures - {requestId.s};
        var error := Get(response.entries, "error").GetOr(Null);
        if Truthy(error) {
          future.state := Failed(RemoteError(error));
        } else {
          future.state := Resolved(Get(response.entries, "result").GetOr(Null));
        }
      }
    }

    /** The listener's read and decode of one response (rpc.py:102-104). */
    method NextResponse(parse: seq<byte> -> Decoded) returns (r: Result<Value, Fault>)
      requires conn != null
      modifies conn`inbound
      ensures r == Incoming(old(conn.inbound), parse)
      ensures conn.inbound == Remaining(old(conn.inbound))
    {
      var data := conn.ReadMsg();
      if data.Failure? {
        return Failure(ReadFault(data.error));
      }
      match parse(data.value)
      case DecodeFailed(fault) =>
        r := Failure(fault);
      case Decoded(response) =>
        r := Success(response);
    }

    /** One pass of the listener loop (rpc.py:102-121, with the handlers of
        rpc.py:107-113 and 126-131): read a response and route it, or fail
        every pending future with the exception and stop. */
    method ListenStep(parse: seq<byte> -> Decoded) returns (stop: bool)
      requires Valid() && conn != null
      modifies this`pendingFutures, conn`inbound, pendingFutures.Values
      ensures Valid()
      ensures conn.inbound == Remaining(old(conn.inbound))
      ensures stop == ListenFault(old(conn.inbound), parse).Some?
      ensures stop ==>
                && pendingFutures == map[]
                && AllIn(old(pendingFutures.Values), Failed(LocalError(ListenFault(old(conn.inbound), parse).value)))
      ensures !stop ==>
                && DecodeFrame(old(conn.inbound)).Success?
                && Routed(old(pendingFutures), Incoming(old(conn.inbound), parse).value, pendingFutures)
      ensures pendingFutures.Values <= old(pendingFutures.Values)
      // what is still to come is what the listener will make of the rest
      ensures forall f :: f in old(pendingFutures.Values) ==>
                if f in pendingFutures.Values
                then Listened(conn.inbound, parse, pendingFutures)[f]
                  == Listened(old(conn.inbound), parse, old(pendingFutures))[f]
                else f.state == Listened(old(conn.inbound), parse, old(pendingFutures))[f]
    {
      ghost var table, unread := pendingFutures, conn.inbound;
      var incoming := NextResponse(parse);
      if incoming.Failure? {
        ListenedStops(unread, parse, table);
        SettleAll(Failed(LocalError(incoming.error)));
        return true;
      }
      var raised := HandleResponse(incoming.value);
      if raised.Some? {
        ListenedStops(unread, parse, table);
        SettleAll(Failed(LocalError(raised.value)));
        return true;
      }
      var key := ResponseKey(incoming.value).value;
      if key.Str? && key.s in table {
        ListenedRoutes(unread, parse, table, key.s);
      } else {
        ListenedIgnores(unread, parse, table);
      }
      return false;
    }

    /** _listen_for_responses (rpc.py:95-131) run until it stops: every
        frame the server wrote is routed in order, each future ends as
        Listened says, and no caller is left waiting. */
    method ListenForResponses(parse: seq<byte> -> Decoded)
      requires Valid() && conn != null
      modifies this`pendingFutures, conn`inbound, pendingFutures.Values
      ensures Valid()
      ensures old(isConnected) ==>
                && pendingFutures == map[]
                && forall f :: f in old(pendingFutures.Values) ==>
                     f.state == Listened(old(conn.inbound), parse, old(pendingFutures))[f]
      ensures old(isConnected) ==> forall f :: f in old(pendingFutures.Values) ==> f.state.Done()
      ensures !old(isConnected) ==> pendingFutures == old(pendingFutures) && conn.inbound == old(conn.inbound)
    {
      if !isConnected {
        return;
      }
      ghost var outcome := Listened(conn.inbound, parse, pendingFutures);
      while isConnected
        invariant Valid() && conn == old(conn) && isConnected
        invariant pendingFutures.Values <= old(pendingFutures.Values)
        invariant forall f :: f in old(pendingFutures.Values) ==>
                    if f in pendingFutures.Values then Listened(conn.inbound, parse, pendingFutures)[f] == outcome[f]
                    else f.state == outcome[f]
        decreases |conn.inbound|
      {
        ghost var before, unread := pendingFutures, conn.inbound;
        label Step:
        var stop := ListenStep(parse);
        forall f | f in old(pendingFutures.Values)
          ensures if f in pendingFutures.Values then Listened(conn.inbound, parse, pendingFutures)[f] == outcome[f]
                  else f.state == outcome[f]
        {
          if f !in before.Values {
            assert f.state == old@Step(f.state);
          } else if f in pendingFutures.Values {
            assert Listened(conn.inbound, parse, pendingFutures)[f] == Listened(unread, parse, before)[f];
          } else {
            assert f.state == Listened(unread, parse, before)[f];
          }
        }
        if stop {
          break;
        }
      }
      ListenedDone(old(conn.inbound), parse, old(pendingFutures));
    }

    /** _async_call up to the send (rpc.py:133-150): connect if needed,
        register a new pending future under `requestId` (uuid4() in
        rpc.py) and write the request frame. The future is what the caller
        then awaits. */
    method AsyncCall(methodName: string, args: seq<Value>, kwargs: seq<(string, Value)>, requestId: string,
                     dumps: Value -> Sendable, newConn: Channel, token: Option<string>,
                     hash: seq<byte> -> Digest)
      returns (r: Result<Future, HandshakeFault>)
      requires Valid()
      modifies this, newConn, conn
      ensures Valid()
      ensures r.Failure? ==>
                && !old(isConnected) && !isConnected
                && ClientRun(token, hash, old(newConn.inbound)).outcome == Refused(r.error)
                && pendingFutures == old(pendingFutures)
                // the new connection is kept, with what the handshake wrote and read
                && conn == newConn
                && newConn.inbound == ClientRun(token, hash, old(newConn.inbound)).rest
                && newConn.outbound == old(newConn.outbound) + ClientRun(token, hash, old(newConn.inbound)).sent
      // a connection that is not used is left as it was
      ensures old(isConnected) && newConn != old(conn) ==> unchanged(newConn)
      ensures !old(isConnected) && old(conn) != null && old(conn) != newConn ==> unchanged(old(conn))
      // no writer is closed: the one in use keeps its closed flag
      ensures conn != null && conn.closed == old(if isConnected then conn.closed else newConn.closed)
      ensures r.Success? ==>
                && isConnected
                && (!old(isConnected) ==> ClientRun(token, hash, old(newConn.inbound)).outcome == Trusted)
                && fresh(r.value) && r.value.state == Pending
                && pendingFutures == old(pendingFutures)[requestId := r.value]
                && (old(isConnected) ==> conn == old(conn))
                && (!old(isConnected) ==> conn == newConn)
                && conn.inbound == (if old(isConnected) then old(conn.inbound)
                                    else ClientRun(token, hash, old(newConn.inbound)).rest)
                && var before := if old(isConnected) then old(conn.outbound)
                                 else old(newConn.outbound) + ClientRun(token, hash, old(newConn.inbound)).sent;
                   conn.outbound == before + EncodeFrame(dumps(RequestRecord(requestId, methodName, args, kwargs)))
    {
      if !isConnected {
        var outcome := Connect(newConn, token, hash);
        if outcome.Refused? {
          return Failure(outcome.fault);
        }
      }
      var future := new Future();
      pendingFutures := pendingFutures[requestId := future];
      conn.SendMsg(dumps(RequestRecord(requestId, methodName, args, kwargs)));
      r := Success(future);
    }
  }

  /** What the client makes of any response the dispatcher writes: the id it
      echoed is the key, and the future ends with the error when there is one
      and with the result otherwise. */
  lemma DispatchedResponseSettles(request: Request, registry: map<string, Service>)
    ensures var r := Dispatch(request, registry);
            && ResponseKey(r.ToJson()) == (if Hashable(r.id) then Success(r.id) else Failure(Unhashable(r.id)))
            && Settlement(r.ToJson())
               == if r.error.Some? then Failed(RemoteError(Str(r.error.value))) else Resolved(r.result)
  {
    var r := Dispatch(request, registry);
    var error := if r.error.Some? then Str(r.error.value) else Null;
    assert r.ToJson().entries == [("id", r.id)] + ([("result", r.result)] + [("error", error)]);
    assert "result" != "error" by { assert "result"[0] != "error"[0]; }
    GetCons("id", r.id, [("result", r.result)] + [("error", error)], "id");
    GetCons("id", r.id, [("result", r.result)] + [("error", error)], "result");
    GetCons("id", r.id, [("result", r.result)] + [("error", error)], "error");
    GetCons("result", r.result, [("error", error)], "result");
    GetCons("result", r.result, [("error", error)], "error");
    GetCons("error", error, [], "error");
  }

  /** The dispatcher finds in a request the client built exactly what the
      client put there. */
  lemma RequestRecordFields(id: string, methodName: string, args: seq<Value>, kwargs: seq<(string, Value)>)
    ensures var e := RequestRecord(id, methodName, args, kwargs).entries;
            && Get(e, "id") == Some(Str(id))
            && Get(e, "method") == Some(Str(methodName))
            && Get(e, "params") == Some(Obj([("args", Arr(args)), ("kwargs", Obj(kwargs))]))
    ensures Get([("args", Arr(args)), ("kwargs", Obj(kwargs))], "args") == Some(Arr(args))
    ensures Get([("args", Arr(args)), ("kwargs", Obj(kwargs))], "kwargs") == Some(Obj(kwargs))
  {
    var params := [("args", Arr(args)), ("kwargs", Obj(kwargs))];
    var tail3 := [("params", Obj(params))];
    var tail2 := [("method", Str(methodName))] + tail3;
    var tail1 := [("id", Str(id))] + tail2;
    assert RequestRecord(id, methodName, args, kwargs).entries == [("type", Str("rpc"))] + tail1;
    assert "method" != "params" by { assert "method"[0] != "params"[0]; }
    GetCons("type", Str("rpc"), tail1, "id");
    GetCons("type", Str("rpc"), tail1, "method");
    GetCons("type", Str("rpc"), tail1, "params");
    GetCons("id", Str(id), tail2, "id");
    GetCons("id", Str(id), tail2, "method");
    GetCons("id", Str(id), tail2, "params");
    GetCons("method", Str(methodName), tail3, "method");
    GetCons("method", Str(methodName), tail3, "params");
    GetCons("params", Obj(params), [], "params");
    assert params == [("args", Arr(args))] + [("kwargs", Obj(kwargs))];
    GetCons("args", Arr(args), [("kwargs", Obj(kwargs))], "args");
    GetCons("args", Arr(args), [("kwargs", Obj(kwargs))], "kwargs");
    GetCons("kwargs", Obj(kwargs), [], "kwargs");
  }

  /** A request the client sends is answered under its own id, with the
      named service called on its arguments, or with the NameError for a
      name the registry lacks. */
  lemma {:induction false} DispatchRequestRecord(id: string, methodName: string, args: seq<Value>,
                                                 kwargs: seq<(string, Value)>, registry: map<string, Service>)
    ensures var r := Dispatch(Payload(RequestRecord(id, methodName, args, kwargs)), registry);
            var outcome := if methodName in registry then Call(registry[methodName], Arr(args), Obj(kwargs))
                           else Failure(Fault("NameError", "Method '" + methodName + "' not found."));
            && r.id == Str(id)
            && r == match outcome
                    case Success(result) => Response(Str(id), result, None)
                    case Failure(fault) => Response(Str(id), Null, Some(Render(fault)))
  {
    RequestRecordFields(id, methodName, args, kwargs);
  }

  /** The reply to greet(name) sent by the client resolves its future with
      the greeting. */
  lemma GreetCall(id: string, name: string)
    ensures var reply := Dispatch(Payload(RequestRecord(id, "greet", [Str(name)], [])), Registry).ToJson();
            && ResponseKey(reply) == Success(Str(id))
            && Settlement(reply) == Resolved(Str(GreetingPrefix + name + "!"))
  {
    DispatchRequestRecord(id, "greet", [Str(name)], [], Registry);
    OneArgument(Greet, Str(name));
    DispatchedResponseSettles(Payload(RequestRecord(id, "greet", [Str(name)], [])), Registry);
  }

  /** greet on anything but a string fails the caller's future with the
      rendered TypeError. */
  lemma GreetTypeError(id: string, name: Value)
    requires !name.Str?
    ensures var reply := Dispatch(Payload(RequestRecord(id, "greet", [name], [])), Registry).ToJson();
            Settlement(reply) == Failed(RemoteError(Str(Render(Fault("TypeError", "Name must be a string")))))
  {
    var fault := Fault("TypeError", "Name must be a string");
    assert Call(Greet, Arr([name]), Obj([])) == Failure(fault) by {
      OneArgument(Greet, name);
    }
    var r := Dispatch(Payload(RequestRecord(id, "greet", [name], [])), Registry);
    assert r == Response(Str(id), Null, Some(Render(fault))) by {
      DispatchRequestRecord(id, "greet", [name], [], Registry);
    }
    DispatchedResponseSettles(Payload(RequestRecord(id, "greet", [name], [])), Registry);
  }

  /** long_running_task(n) resolves with the completion report naming n. */
  lemma TaskCall(id: string, n: nat)
    ensures var reply := Dispatch(Payload(RequestRecord(id, "long_running_task", [Int(n)], [])), Registry).ToJson();
            && ResponseKey(reply) == Success(Str(id))
            && Settlement(reply) == Resolved(Str(TaskPrefix + NatToString(n) + TaskSuffix))
  {
    DispatchRequestRecord(id, "long_running_task", [Int(n)], [], Registry);
    OneArgument(LongRunningTask, Int(n));
    DispatchedResponseSettles(Payload(RequestRecord(id, "long_running_task", [Int(n)], [])), Registry);
  }

  /** A method the registry lacks fails the caller's future with the
      rendered NameError. */
  lemma UnknownMethodCall(id: string, name: string, args: seq<Value>, kwargs: seq<(string, Value)>)
    requires name !in Registry
    ensures var reply := Dispatch(Payload(RequestRecord(id, name, args, kwargs)), Registry).ToJson();
            && ResponseKey(reply) == Success(Str(id))
            && Settlement(reply) == Failed(RemoteError(Str(Render(Fault("NameError", "Method '" + name + "' not found.")))))
  {
    DispatchRequestRecord(id, name, args, kwargs, Registry);
    DispatchedResponseSettles(Payload(RequestRecord(id, name, args, kwargs)), Registry);
  }

  /** A client connected, with matching tokens, to a server that will go on
      to write `replies`. */
  method OpenClient(token: string, challenge: seq<byte>, hash: seq<byte> -> Digest, replies: seq<byte>)
    returns (client: RpcClient, conn: Channel)
    requires token != "" && |challenge| < MaxPayload
    ensures fresh(client) && fresh(conn) && client.Valid()
    ensures client.isConnected && client.conn == conn && client.pendingFutures == map[]
    ensures conn.inbound == replies
  {
    MatchingTokensTrusted(Some(token), challenge, hash, replies, []);
    conn := new Channel(EncodeFrame(challenge) + EncodeFrame(OkTag) + replies);
    client := new RpcClient("localhost", 8888);
    var outcome := client.Connect(conn, Some(token), hash);
  }

  /** Two calls made one after the other on a connected client: each gets
      its own pending future under its own id, and nothing is read. */
  method SendTwo(client: RpcClient, dumps: Value -> Sendable, token: string, hash: seq<byte> -> Digest,
                 firstId: string, secondId: string)
    returns (call1: Future, call2: Future)
    requires client.Valid() && client.isConnected && client.pendingFutures == map[] && firstId != secondId
    modifies client, client.conn
    ensures client.Valid() && client.isConnected && client.conn == old(client.conn)
    ensures client.conn.inbound == old(client.conn.inbound)
    ensures fresh(call1) && fresh(call2) && call1 != call2
    ensures call1.state == Pending && call2.state == Pending
    ensures client.pendingFutures == map[firstId := call1, secondId := call2]
  {
    var conn := client.conn;
    var r1 := client.AsyncCall("long_running_task", [Int(2)], [], firstId, dumps, conn, Some(token), hash);
    call1 := r1.value;
    var r2 := client.AsyncCall("greet", [Str("Tester")], [], secondId, dumps, conn, Some(token), hash);
    call2 := r2.value;
  }

  /** The listener reading a frame that carries a reply to `id`: exactly
      that caller's future is settled and removed from the table, and the
      other futures are untouched. */
  method Deliver(client: RpcClient, parse: seq<byte> -> Decoded, data: seq<byte>, rest: seq<byte>,
                 reply: Value, id: string, future: Future)
    requires client.Valid() && client.conn != null && |data| < MaxPayload
    requires client.conn.inbound == EncodeFrame(data) + rest && parse(data) == Decoded(reply)
    requires ResponseKey(reply) == Success(Str(id))
    requires id in client.pendingFutures && client.pendingFutures[id] == future
    modifies client`pendingFutures, client.conn`inbound, client.pendingFutures.Values
    ensures client.Valid() && client.conn.inbound == rest
    ensures future.state == Settlement(reply)
    ensures client.pendingFutures == old(client.pendingFutures) - {id}
    ensures forall f :: f in old(client.pendingFutures.Values) && f != future ==> f.state == old(f.state)
  {
    DecodeEncode(data, rest);
    var stop := client.ListenStep(parse);
  }

  /** Two calls in flight on one connection, answered out of order: the
      first call is sent first, the reply to the second arrives first, and
      each future still ends with its own reply. (For the dispatcher's real
      replies, TaskCall and GreetCall give the ids and settlements.) */
  method InterleavedCalls(token: string, challenge: seq<byte>, hash: seq<byte> -> Digest,
                          dumps: Value -> Sendable, parse: seq<byte> -> Decoded,
                          firstId: string, secondId: string, firstReply: Value, secondReply: Value)
    returns (first: FutureState, second: FutureState)
    requires token != "" && |challenge| < MaxPayload && firstId != secondId
    requires parse(dumps(firstReply)) == Decoded(firstReply) && parse(dumps(secondReply)) == Decoded(secondReply)
    requires ResponseKey(firstReply) == Success(Str(firstId)) && ResponseKey(secondReply) == Success(Str(secondId))
    ensures first == Settlement(firstReply) && second == Settlement(secondReply)
  {
    var firstFrame := EncodeFrame(dumps(firstReply));
    var client, conn := OpenClient(token, challenge, hash, EncodeFrame(dumps(secondReply)) + firstFrame);
    var call1, call2 := SendTwo(client, dumps, token, hash, firstId, secondId);

    assert call1 in client.pendingFutures.Values by {
      assert client.pendingFutures[firstId] == call1;
    }
    Deliver(client, parse, dumps(secondReply), firstFrame, secondReply, secondId, call2);
    assert firstFrame + [] == firstFrame;
    Deliver(client, parse, dumps(firstReply), [], firstReply, firstId, call1);
    first, second := call1.state, call2.state;
  }
}
