# trust_sockets in Dafny

A model of the core of trust_sockets, a small RPC library over TCP. It has three parts:

- **Framing.** Every message on the stream is a frame: a 4-byte big-endian unsigned length (`struct` format `"!I"`) followed by that many payload bytes.
- **Handshake.** Before any RPC, the two ends prove they hold the same secret `TRUST_ID`:
  1. the server sends a random hex challenge;
  2. the client answers with `sha256(challenge + TRUST_ID)`;
  3. the server replies with the frame `OK` or `FAIL`.
- **RPC.** The server's `dispatch_rpc_call` turns a decoded request into a response record `{id, result, error}`, with errors rendered as `"Kind: message"`. The client's `RPCClient` keeps a table of pending futures indexed by request id. A background listener settles each future when the response with its id arrives.

The model has seven modules, one per file:

- `Base`: the `byte` type, `Option` and `Result`.
- `Framing`: header packing, `EncodeFrame` and `DecodeFrame`, and a `Channel` class. The channel holds the bytes still to be read and the bytes written so far. Its methods `ReadExactly`, `ReadMsg` and `SendMsg` model `readexactly`, `read_msg` and `send_msg`.
- `Handshake`: both roles, each written twice:
  - as a pure function of the bytes the peer writes (`ServerRun`, `ClientRun`);
  - as a method over a `Channel` (`PerformServerHandshake`, `PerformClientHandshake`) proved equal to that function.

  Two lemmas compose the roles: matching tokens make both sides trusted; different digests make both sides refuse.
- `Values`: decoded JSON values and the Python behaviour the RPC code relies on: `dict.get`, truthiness, hashability, `str()` and the exception messages.
- `Services`: `greet`, `long_running_task` and the `RPC_FUNCTIONS` registry.
- `Dispatcher`: `dispatch_rpc_call` as a total function, including how Python binds `*args`/`**kwargs` to the one parameter of a service.
- `Client`: `RPCClient` as a class:
  - its fields are the connection, the `_is_connected` flag, the listener flag and `pending_futures`, a map from id to a `Future` object;
  - one method per step: connect, register-and-send, handle one response, fail all, close, and the listener loop;
  - lemmas that compose the dispatcher's replies with the client's settlement of the caller's future.

External effects become parameters:

- **The token** is an `Option<string>`.
- **SHA-256** is an arbitrary function `hash` to 32-byte digests.
- **The challenge** is 16 random bytes, hex-encoded as `secrets.token_hex` does.
- **`json.loads` on the client** is a function `parse` from a payload to a decoded value or a fault.
- **`json.dumps(...).encode()`** is a function `dumps` to payloads shorter than 2^32 bytes.
- **`uuid4()`** is the `requestId` argument.

The `None` checks after `read_msg` never fire, and the model follows what the code does instead:

- **`read_msg` never returns `None`.** `readexactly` raises `IncompleteReadError` on a short read, and a 4-byte header is always truthy (protocol.py:26-28). Consequences:
  - `ConnectionClosedError` is never raised (protocol.py:58-59, 81-82). A peer that closes during either handshake makes it fail with `IncompleteReadError` (`HandshakeFault.IncompleteReadError`).
  - A client whose stream ends before the verdict fails with that read error, not with "Server rejected connection…". The rejection error is raised exactly when a whole frame other than `OK` arrives.
  - At end of stream, the client's listener takes the outer `except Exception` path (rpc.py:126-131). It fails every pending future with the read error and stops. `_is_connected` stays true.

## Model

| member | source | states |
|---|---|---|
| Framing.ToBigEndian | trust_sockets/protocol.py:41 | the width-byte big-endian encoding of n has that width and reads back as n |
| Framing.ToBigEndianOfBigEndian | trust_sockets/protocol.py:30 | reading bytes as a big-endian number and writing it back at the same width gives the same bytes |
| Framing.Pack | trust_sockets/protocol.py:41 | `struct.pack("!I", n)` is exactly 4 bytes whose big-endian value is n, for every n < 2^32 |
| Framing.Unpack | trust_sockets/protocol.py:30 | `struct.unpack("!I", h)` is the big-endian value of the 4 bytes, below 2^32, and packing it gives h back |
| Framing.UnpackPack | trust_sockets/protocol.py:30 | unpacking a packed length gives the length |
| Framing.EncodeFrame | trust_sockets/protocol.py:39-42 | the frame is 4 + len(data) bytes; its header is the big-endian length and the payload follows unchanged |
| Framing.DecodeFrame | trust_sockets/protocol.py:24-36 | a frame is read exactly when the buffer holds 4 bytes and then the declared number of bytes. It then returns a payload and a rest with buffer == EncodeFrame(payload) + rest. Otherwise it is a read error with fewer bytes than expected |
| Framing.DecodeEncode | trust_sockets/protocol.py:24-42 | decoding EncodeFrame(d) + rest gives d and leaves rest unread, for every d shorter than 2^32 |
| Framing.EmptyPayload | trust_sockets/protocol.py:32-33 | a zero length header decodes to the empty payload, not to end of stream |
| Framing.Truncated | trust_sockets/protocol.py:26-35 | a buffer shorter than 4 bytes, or than 4 plus the declared length, is a read error, never a shorter payload |
| Framing.Channel.ReadExactly | trust_sockets/protocol.py:26 | `readexactly(n)` returns the next n bytes, or on a short stream consumes all of it and raises with what was there |
| Framing.Channel.ReadMsg | trust_sockets/protocol.py:24-36 | `read_msg` returns the payload DecodeFrame finds and leaves the rest unread, or raises its read error with the stream consumed |
| Framing.Channel.SendMsg | trust_sockets/protocol.py:39-43 | `send_msg` appends exactly EncodeFrame(data) to what was written |
| Framing.Channel.Close | trust_sockets/rpc.py:74 | closing marks the writer closed and changes nothing else |
| Handshake.TokenSet | trust_sockets/protocol.py:49-50 | `if not trust_id` holds for a missing or an empty token; ServerRun and ClientRun refuse exactly when TokenSet fails, before any I/O (protocol.py:77-78 on the client) |
| Handshake.TokenHex | trust_sockets/protocol.py:53 | `token_hex` of k bytes is 2k bytes long |
| Handshake.TokenHexDigits | trust_sockets/protocol.py:53 | every challenge byte is a lower-case hex digit, two per random byte, high nibble first |
| Handshake.Expected | trust_sockets/protocol.py:62-65 | the digest both sides compute. The two `update` calls hash the concatenation of the challenge and the token's UTF-8 bytes, written directly as hash(challenge + Utf8(token)). MatchingTokensTrusted and MismatchedTokensRefused are stated with it |
| Handshake.Utf8Char | trust_sockets/protocol.py:64 | one character encodes to one to four bytes, and to one byte exactly when it is ASCII |
| Handshake.Utf8 | trust_sockets/protocol.py:64 | `str.encode("utf-8")` gives at least one byte per character |
| Handshake.Utf8Append | trust_sockets/protocol.py:64 | UTF-8 encoding of a concatenation is the concatenation of the encodings |
| Handshake.ServerRun | trust_sockets/protocol.py:46-70 | no or empty token: "Server TRUST_ID not set." before any I/O. A short read: the read error, with only the challenge sent. Otherwise it sends OK exactly when the response equals hash(challenge + utf8(token)), and FAIL with the mismatch error otherwise |
| Handshake.ClientRun | trust_sockets/protocol.py:72-95 | no or empty token: "Client TRUST_ID not set." with nothing read or sent. A short challenge read: the read error with nothing sent. It sends exactly hash(challenge + utf8(token)). A stream that ends before a whole verdict gives the read error with everything consumed. After a whole verdict the bytes that follow stay unread; the client is trusted exactly when that verdict is OK and rejected exactly when it is anything else |
| Handshake.MatchingTokensTrusted | trust_sockets/protocol.py:46-95 | with the same token, the client's answer to the server's challenge is accepted. Both sides end trusted, and each reads exactly what the other wrote |
| Handshake.MismatchedTokensRefused | trust_sockets/protocol.py:62-94 | when the digests differ, the server sends FAIL and raises the mismatch error, and the client then raises the rejection error |
| Handshake.PerformServerHandshake | trust_sockets/protocol.py:46-70 | over a channel, the outcome, the bytes written and the bytes left unread are exactly those of ServerRun on the hex challenge |
| Handshake.PerformClientHandshake | trust_sockets/protocol.py:72-95 | over a channel, the outcome, the bytes written and the bytes left unread are exactly those of ClientRun |
| Values.Render | trust_sockets/rpc.py:37 | the error text is the exception's class name, then ": ", then its message |
| Values.Truthy | trust_sockets/rpc.py:118 | the falsy values are exactly None, False, 0, "", [] and {} |
| Values.Get | trust_sockets/rpc.py:19 | `dict.get` on a decoded object; GetSpec, GetCons, GetAppend and GetReplace state what it finds |
| Values.GetSpec | trust_sockets/rpc.py:19-23 | `dict.get` finds a key exactly when the object has it, and returns the value of its first occurrence |
| Values.GetAppend | trust_sockets/rpc.py:21-23 | adding a missing key makes `get` find it and changes no other lookup |
| Values.GetReplace | trust_sockets/rpc.py:21-23 | changing the value stored under one key changes no lookup of another key |
| Values.NoAttribute | trust_sockets/rpc.py:19-22 | the AttributeError of `.get` on a value that is not a dict; NoAttributeGet writes out its message, and NonDictRequest and NonDictParams state where it is raised |
| Values.NoAttributeGet | trust_sockets/rpc.py:19-22 | the message is "'<type>' object has no attribute 'get'" |
| Values.Unhashable | trust_sockets/rpc.py:25 | the TypeError of a list or dict used as a key; UnhashableMethod and ResponseKey state where it is raised |
| Values.NatToString | trust_sockets/services.py:17 | `str(n)` is decimal digits with no leading zero |
| Values.DecimalValueOfNatToString | trust_sockets/services.py:17 | the digits of `str(n)` read back as n |
| Values.IntToString | trust_sockets/services.py:17 | `str(i)` has a minus sign exactly when i is negative, followed by the digits of its magnitude |
| Values.PyStr | trust_sockets/rpc.py:26 | the f-string text of a JSON scalar: None, True/False, IntToString of an int, a string itself; NonStringMethod and CompleteTask state where it is shown |
| Services.Greeting | trust_sockets/services.py:7-11 | greet succeeds exactly on strings, with "Hello, " + name + "!", and raises TypeError "Name must be a string" otherwise |
| Services.Registry | trust_sockets/services.py:22-25 | the two registered names and the functions behind them; RegistryNames states which names it holds |
| Services.SleepCheck | trust_sockets/services.py:16 | `asyncio.sleep` compares the delay with 0: ints and bools pass, anything else raises the comparison's TypeError |
| Services.CompleteTask | trust_sockets/services.py:13-19 | long_running_task succeeds exactly when `asyncio.sleep` accepts the delay, and otherwise raises a TypeError. Its report is "Task completed after ", then str(seconds), then " seconds." |
| Services.CompleteTaskReportsSeconds | trust_sockets/services.py:16-17 | any integer delay, negative ones included, is accepted. The report shows a minus sign exactly for a negative delay, followed by digits that read back as its magnitude |
| Services.CompleteTaskAcceptsBool | trust_sockets/services.py:16-17 | a boolean delay is accepted, and the report shows True or False |
| Services.Apply | trust_sockets/services.py:7-19 | running either service raises nothing but TypeError |
| Dispatcher.Response.ToJson | trust_sockets/rpc.py:39 | the response dict with exactly the keys id, result and error; DispatchedResponseSettles states what the client reads from it |
| Dispatcher.Positional | trust_sockets/rpc.py:32-34 | `*args` unpacks exactly lists, strings and dicts: a list to its items, a string to its characters and a dict to its keys, in order; anything else is a TypeError |
| Dispatcher.Keywords | trust_sockets/rpc.py:32-34 | `**kwargs` unpacks exactly a dict, to its entries in order; anything else is a TypeError |
| Dispatcher.BindKeywords | trust_sockets/rpc.py:32-34 | the keywords bind exactly when there are none, or there is one, it names the parameter, and the parameter is still free. The parameter then gets that keyword's value; every failure is a TypeError |
| Dispatcher.Bind | trust_sockets/rpc.py:32-34 | a call binds exactly when the one parameter is given once, by position or by name, and nothing else is given. It gets that argument; every other call is a TypeError |
| Dispatcher.Call | trust_sockets/rpc.py:31-34 | `func(*args, **kwargs)` raises only TypeError, and succeeds only when kwargs is a dict and args is iterable |
| Dispatcher.Evaluate | trust_sockets/rpc.py:18-34 | a request produces a result only when its "method" is a string naming a registered service. A failure is a KeyError, AttributeError, TypeError or NameError |
| Dispatcher.Dispatch | trust_sockets/rpc.py:11-40 | an error always comes with a null result and is never empty. A dict request has its id echoed; anything else gets id null and an error. Every error is the "Kind: message" rendering of some exception |
| Dispatcher.RegisteredMethod | trust_sockets/rpc.py:18-39 | a dict request naming a registered method, with params absent or a dict, evaluates to the service called on params' "args" and "kwargs" (empty when absent), whatever other keys it carries; its response echoes the id with the result and a null error, or a null result and the rendered exception |
| Dispatcher.UnparsedRequest | trust_sockets/rpc.py:15-18 | a request that does not decode gets id null and the decoding error as "Kind: message" |
| Dispatcher.NonDictRequest | trust_sockets/rpc.py:18-19 | a request that decodes to something other than a dict gets id null and "AttributeError: '<type>' object has no attribute 'get'" |
| Dispatcher.NonDictParams | trust_sockets/rpc.py:21-22 | a "params" that is present but not a dict (null, say) keeps the id and gets that AttributeError for its type |
| Dispatcher.UnhashableMethod | trust_sockets/rpc.py:25 | a list or dict as method name keeps the id and gets "TypeError: unhashable type: '<type>'" |
| Dispatcher.NonStringMethod | trust_sockets/rpc.py:25-26 | a number, boolean or null as method name keeps the id and gets the NameError showing its str() |
| Dispatcher.MissingMethod | trust_sockets/rpc.py:19-20 | a dict without "method" keeps its id and gets "KeyError: 'method'" |
| Dispatcher.UnknownMethod | trust_sockets/rpc.py:25-26 | a name the registry lacks gets the NameError "Method '<name>' not found." with the id echoed |
| Dispatcher.DefaultParams | trust_sockets/rpc.py:21-23 | a request without params is dispatched exactly like one with empty args and kwargs |
| Dispatcher.DefaultArgs | trust_sockets/rpc.py:22 | inside params, a missing "args" is dispatched exactly like an empty list |
| Dispatcher.DefaultKwargs | trust_sockets/rpc.py:23 | inside params, a missing "kwargs" is dispatched exactly like an empty dict |
| Dispatcher.NoArguments | trust_sockets/rpc.py:21-34 | a call without arguments reaches the service with none, and binding reports the missing parameter |
| Dispatcher.OneArgument | trust_sockets/rpc.py:32-34 | one argument, by position or by the parameter's name, runs the service on it |
| Dispatcher.MappingCheckedFirst | trust_sockets/rpc.py:32-34 | a non-mapping `**kwargs` is reported before anything about `*args` |
| Dispatcher.UnexpectedKeyword | trust_sockets/rpc.py:32-34 | a keyword other than the parameter's name is refused, naming that keyword |
| Dispatcher.MultipleValues | trust_sockets/rpc.py:32-34 | the parameter given both by position and by name is refused with "got multiple values" |
| Dispatcher.TooManyArguments | trust_sockets/rpc.py:32-34 | more than one positional argument is refused, naming the count |
| Dispatcher.RegistryNames | trust_sockets/services.py:22-25 | the registry holds exactly "greet" and "long_running_task" |
| Client.RequestRecord | trust_sockets/rpc.py:139-144 | the request dict: type "rpc", the id, the method and params holding args and kwargs; RequestRecordFields states what the dispatcher reads back from it |
| Client.ResponseKey | trust_sockets/rpc.py:115-116 | a response yields a key exactly when it is a dict whose id is hashable, and the key is that id |
| Client.Settlement | trust_sockets/rpc.py:118-121 | a matched future always ends settled, and it fails exactly when the response's error is truthy |
| Client.ReadFault | trust_sockets/rpc.py:102 | the IncompleteReadError a short read raises, naming the bytes read and the bytes expected |
| Client.Incoming | trust_sockets/rpc.py:102-107 | a stream that ends before a whole frame gives the read error; IncomingFrame gives the whole-frame case |
| Client.IncomingFrame | trust_sockets/rpc.py:102-107 | a whole frame is read as its payload decoded by json.loads, or as the decoding error, and leaves exactly the bytes after it |
| Client.Remaining | trust_sockets/rpc.py:102 | reading a whole frame consumes at least its header, and a failed read consumes everything |
| Client.ListenFault | trust_sockets/rpc.py:102-131 | the listener goes on exactly when the next read and decode succeed and give a dict with a hashable id |
| Client.ListenFaultFrame | trust_sockets/rpc.py:105-116 | after a whole frame, the listener goes on exactly when the payload decodes to a dict whose id can be a key |
| Client.ListenerStopsAtEnd | trust_sockets/rpc.py:102-131 | at the end of the stream the listener stops with "n bytes read on a total of 4 expected bytes", not by the `None` check |
| Client.Listened | trust_sockets/rpc.py:100-131 | the listener's run over the bytes still to come decides a final state for exactly the futures of the table |
| Client.ListenedDone | trust_sockets/rpc.py:100-131 | in that run, no future is left pending |
| Client.ListenedReply | trust_sockets/rpc.py:115-121 | a frame carrying the reply to a waiting id ends that future with the reply's settlement, whatever follows |
| Client.Routed | trust_sockets/rpc.py:115-121 | the effect of one response with a usable id: a matching entry is popped and its future settled, and nothing else changes; HandleResponse and ListenStep are stated with it |
| Client.KeptValues | trust_sockets/rpc.py:117 | popping one id keeps every future stored under another id |
| Client.Future.constructor | trust_sockets/rpc.py:147 | a new future is pending |
| Client.RpcClient.constructor | trust_sockets/rpc.py:47-54 | a new client has no connection, is not connected, has no listener and an empty table |
| Client.RpcClient.Connect | trust_sockets/rpc.py:56-67 | an already connected client returns at once, changing nothing. Otherwise the connection is kept and the handshake runs exactly as ClientRun. The client becomes connected, with a listener, only when it succeeds; the table is untouched |
| Client.RpcClient.SettleAll | trust_sockets/rpc.py:90-93 | every future of the table gets the given final state, and the table ends empty |
| Client.RpcClient.Close | trust_sockets/rpc.py:69-93 | a connected client ends disconnected, with its writer closed and no listener. Every pending future is cancelled and the table is empty. Closing a client that is not connected changes nothing, so a second close is a no-op |
| Client.RpcClient.HandleResponse | trust_sockets/rpc.py:115-122 | a response whose id is in the table removes exactly that entry and settles its future, leaving every other future unchanged. An unknown id changes nothing. A non-dict or unhashable id raises and leaves the table untouched |
| Client.RpcClient.NextResponse | trust_sockets/rpc.py:102-107 | the listener's read and decode is Incoming of the unread bytes, and consumes what Remaining leaves |
| Client.RpcClient.ListenStep | trust_sockets/rpc.py:102-131 | one listener pass either routes the next response as HandleResponse does, or fails every pending future with the exception, empties the table and stops. Every future it settles ends as Listened says, and for every other future Listened over the rest gives the same final state |
| Client.RpcClient.ListenForResponses | trust_sockets/rpc.py:95-131 | the listener of a connected client always stops. The table is then empty, and every future it held ends exactly as Listened over the unread bytes says, so none is still pending |
| Client.RpcClient.AsyncCall | trust_sockets/rpc.py:133-150 | it connects first if needed. A refused handshake raises with the table unchanged, and keeps the new connection with what the handshake wrote and read. A success on a fresh connection means the handshake was trusted. A connection it does not use is left as it was, and the one it uses keeps its closed flag. Otherwise it adds one fresh pending future under the request id, leaves every other entry, and writes exactly the frame of the request record |
| Client.DispatchedResponseSettles | trust_sockets/rpc.py:36-40 | any response the dispatcher writes is keyed by the id it echoed, and settles the caller's future with its error when it has one and with its result otherwise |
| Client.RequestRecordFields | trust_sockets/rpc.py:139-144 | the dispatcher reads back from a client's request exactly the id, method, args and kwargs the client put in |
| Client.DispatchRequestRecord | trust_sockets/rpc.py:11-40 | a client's request is answered under its own id, with the named service called on its arguments, or the NameError for an unknown name |
| Client.GreetCall | trust_sockets/services.py:7-11 | calling greet(name) resolves the caller's future with "Hello, " + name + "!" |
| Client.GreetTypeError | trust_sockets/services.py:9-10 | greet on a non-string fails the caller's future with "TypeError: Name must be a string" |
| Client.TaskCall | trust_sockets/services.py:13-19 | for n >= 0, long_running_task(n) resolves the caller's future with "Task completed after " + str(n) + " seconds." |
| Client.UnknownMethodCall | trust_sockets/rpc.py:25-26 | calling an unregistered name fails the caller's future with "NameError: Method '<name>' not found." |
| Client.OpenClient | trust_sockets/rpc.py:56-67 | with matching tokens, connect leaves a connected client whose unread input is exactly what the server writes after OK |
| Client.SendTwo | trust_sockets/rpc.py:133-150 | two calls on a connected client leave two distinct pending futures under their two ids, and nothing is read |
| Client.Deliver | trust_sockets/rpc.py:115-121 | a frame carrying the reply to an id settles exactly that caller's future, removes only its entry, and leaves the other futures alone |
| Client.InterleavedCalls | trust_sockets/rpc.py:95-151 | two calls whose replies arrive in the opposite order each end with their own reply |

## Left out

- asyncio stream I/O (`open_connection`, `drain`, `wait_closed` and their errors) is left out. The socket is a `Channel` that holds the bytes still to be read and the bytes written.
- How the event loop interleaves the listener task with callers and with `close` is not modelled. Each method is the sequential effect of one step.
- `CancelledError` is not modelled, nor a caller cancelling its own future (which would leave a done future in the table).
- Client.RpcClient.AsyncCall: stops at the send. The `await future` that hands the result or the `RuntimeError` to the caller is the future's final state.
- `sync_call` and `_sync_wrapper` (rpc.py:153-199) are left out: a thread with its own event loop around connect, call and close.
- SHA-256 (FIPS 180-4) is a parameter. The randomness of `secrets.token_hex` is the `random` parameter, so challenge uniqueness is not expressible.
- `uuid4()` is the `requestId` parameter. Uniqueness of ids is not assumed: an id already in the table has its entry replaced, as the dict assignment at rpc.py:148 does.
- JSON text (RFC 8259) is left out. `json.loads` on the server is the `Request` datatype. On the client, `json.loads` and `json.dumps` are the parameters `parse` and `dumps`.
- JSON floats are left out, so `asyncio.sleep` of a float and `str()` of a float are not covered.
- An object is a list of pairs. `get` reads the first occurrence of a key; `json.loads` never yields repeated keys.
- `str()` of a list or dict inside an error message is not modelled. `PyStr` covers the scalar values a hashable method name can be.
- Framing.EncodeFrame: requires a payload shorter than 2^32 bytes. `struct.pack` raises `struct.error` for longer ones, and that error is not modelled.
- Services.CompleteTask: the delay itself, the two debug prints and the `OverflowError` of a delay too large for a float timer are left out.
- The `print` calls and the `os.environ` reads in the handshakes are left out. The token is a parameter.
- `handle_connection`, `main` and the `.env` loading are not part of this model (server.py); nor is the interactive client (client.py).
- The wording of Python's argument-binding errors is that of CPython 3.10 to 3.12; the repository does not contain that text. The source's `X | None` annotations already need 3.10 or later.
- Dispatcher.UnexpectedKeyword: from CPython 3.13 on, the unexpected-keyword TypeError ends with a "Did you mean '<name>'?" suggestion when the keyword is close to the parameter's name; that suffix is not modelled.
