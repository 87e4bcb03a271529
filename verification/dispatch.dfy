/**
 * The server-side dispatcher, dispatch_rpc_call (trust_sockets/rpc.py:11-40):
 * from a decoded request and a registry of services to the response record
 * {id, result, error}. JSON text itself is not modelled: a request arrives
 * either decoded or as the exception its decoding raised.
 */
module Dispatcher {
  import opened Base
  import opened Values
  import opened Services

  /** json.loads(request_data.decode("utf-8")) of one request frame. */
  datatype Request = Unparsed(fault: Fault) | Payload(value: Value)

  /** The record rpc.py:39 serialises. */
  datatype Response = Response(id: Value, result: Value, error: Option<string>) {
    /** The dict json.dumps receives: exactly the keys id, result and error. */
    function ToJson(): Value
    {
      Obj([("id", id), ("result", result), ("error", if error.Some? then Str(error.value) else Null)])
    }
  }

  /** How CPython names a module-level function in call errors. */
  function FunctionStr(service: Service): string
  {
    "trust_sockets.services." + service.Name() + "()"
  }

  /** `*args`: the positional arguments an iterable unpacks to. */
  function Positional(service: Service, args: Value): (r: Result<seq<Value>, Fault>)
    ensures r.Success? <==> args.Arr? || args.Str? || args.Obj?
    // a list unpacks to its items
    ensures args.Arr? ==> r.value == args.items
    // a string unpacks to its characters, a dict to its keys, both in order
    ensures args.Str? ==> |r.value| == |args.s| && forall i :: 0 <= i < |args.s| ==> r.value[i] == Str([args.s[i]])
    ensures args.Obj? ==> |r.value| == |args.entries| &&
                          forall i :: 0 <= i < |args.entries| ==> r.value[i] == Str(args.entries[i].0)
    ensures r.Failure? ==> r.error.kind == "TypeError"
  {
    match args
    case Arr(items) => Success(items)
    case Str(s) => Success(seq(|s|, i requires 0 <= i < |s| => Str([s[i]])))
    case Obj(entries) => Success(seq(|entries|, i requires 0 <= i < |entries| => Str(entries[i].0)))
    case _ => Failure(Fault("TypeError", FunctionStr(service) + " argument after * must be an iterable, not " + TypeName(args)))
  }

  /** `**kwargs`: the keyword arguments a mapping unpacks to. */
  function Keywords(service: Service, kwargs: Value): (r: Result<seq<(string, Value)>, Fault>)
    ensures r.Success? <==> kwargs.Obj?
    ensures r.Success? ==> r.value == kwargs.entries
    ensures r.Failure? ==> r.error.kind == "TypeError"
  {
    match kwargs
    case Obj(entries) => Success(entries)
    case _ => Failure(Fault("TypeError", FunctionStr(service) + " argument after ** must be a mapping, not " + TypeName(kwargs)))
  }

  /** Assigns the keyword arguments, in order, to the service's one
      parameter, which `bound` says is already filled or not. */
  function BindKeywords(service: Service, keywords: seq<(string, Value)>, bound: Option<Value>)
    : (r: Result<Option<Value>, Fault>)
    ensures keywords == [] ==> r == Success(bound)
    // the keywords bind exactly when there is at most one, it names the
    // parameter, and the parameter is still free
    ensures r.Success? <==>
              keywords == [] || (bound.None? && |keywords| == 1 && keywords[0].0 == service.Parameter())
    ensures r.Success? && keywords != [] ==> r.value == Some(keywords[0].1)
    ensures r.Failure? ==> r.error.kind == "TypeError"
  {
    if keywords == [] then Success(bound)
    else
      var (key, value) := keywords[0];
      if key != service.Parameter() then
        Failure(Fault("TypeError", service.Name() + "() got an unexpected keyword argument '" + key + "'"))
      else if bound.Some? then
        Failure(Fault("TypeError", service.Name() + "() got multiple values for argument '" + key + "'"))
      else
        BindKeywords(service, keywords[1..], Some(value))
  }

  /** Python's binding of call arguments to the one parameter of a service:
      keywords first, then the positional count, then the missing argument. */
  function Bind(service: Service, positional: seq<Value>, keywords: seq<(string, Value)>)
    : (r: Result<Value, Fault>)
    // the call binds exactly when the parameter is given once, by position
    // or by name, and nothing else is given
    ensures r.Success? <==>
              || (|positional| == 1 && keywords == [])
              || (positional == [] && |keywords| == 1 && keywords[0].0 == service.Parameter())
    ensures r.Success? ==> r.value == if positional != [] then positional[0] else keywords[0].1
    ensures r.Failure? ==> r.error.kind == "TypeError"
  {
    var first := if positional == [] then None else Some(positional[0]);
    match BindKeywords(service, keywords, first)
    case Failure(f) => Failure(f)
    case Success(bound) =>
      if |positional| > 1 then
        Failure(Fault("TypeError", service.Name() + "() takes 1 positional argument but "
                                   + NatToString(|positional|) + " were given"))
      else if bound.None? then
        Failure(Fault("TypeError", service.Name() + "() missing 1 required positional argument: '"
                                   + service.Parameter() + "'"))
      else Success(bound.value)
  }

  /** `func(*args, **kwargs)` (rpc.py:31-34): the mapping is unpacked first. */
  function Call(service: Service, args: Value, kwargs: Value): (r: Result<Value, Fault>)
    // a call only raises TypeError, from the unpacking, the binding or the service
    ensures r.Failure? ==> r.error.kind == "TypeError"
    ensures r.Success? ==> kwargs.Obj? && (args.Arr? || args.Str? || args.Obj?)
  {
    match Keywords(service, kwargs)
    case Failure(f) => Failure(f)
    case Success(keywords) =>
      match Positional(service, args)
      case Failure(f) => Failure(f)
      case Success(positional) =>
        match Bind(service, positional, keywords)
        case Failure(f) => Failure(f)
        case Success(argument) => Apply(service, argument)
  }

  /** The body of the try block after the id is read (rpc.py:20-34). */
  function Evaluate(entries: seq<(string, Value)>, registry: map<string, Service>): (r: Result<Value, Fault>)
    // the exceptions the try block can raise
    ensures r.Failure? ==> r.error.kind in {"KeyError", "AttributeError", "TypeError", "NameError"}
    // only a request naming a registered method produces a result
    ensures r.Success? ==>
              && Get(entries, "method").Some?
              && Get(entries, "method").value.Str?
              && Get(entries, "method").value.s in registry
  {
    match Get(entries, "method")
    case None => Failure(Fault("KeyError", "'method'"))
    case Some(methodName) =>
      var params := Get(entries, "params").GetOr(Obj([]));
      if !params.Obj? then Failure(NoAttribute(params, "get"))
      else
        var args := Get(params.entries, "args").GetOr(Arr([]));
        var kwargs := Get(params.entries, "kwargs").GetOr(Obj([]));
        if !Hashable(methodName) then Failure(Unhashable(methodName))
        else if !(methodName.Str? && methodName.s in registry) then
          Failure(Fault("NameError", "Method '" + PyStr(methodName) + "' not found."))
        else Call(registry[methodName.s], args, kwargs)
  }

  /** dispatch_rpc_call (rpc.py:11-40). */
  function Dispatch(request: Request, registry: map<string, Service>): (r: Response)
    // exactly one of result and error is meaningful
    ensures r.error.Some? ==> r.result == Null
    // an error is never the empty string, so the client always sees it as one
    ensures r.error.Some? ==> Truthy(Str(r.error.value))
    // the id is echoed when the request is an object, and null otherwise
    ensures request.Payload? && request.value.Obj? ==>
              r.id == Get(request.value.entries, "id").GetOr(Null)
    ensures !(request.Payload? && request.value.Obj?) ==> r.id == Null && r.error.Some?
    // every error is the "Kind: message" rendering of an exception
    ensures r.error.Some? ==> exists f: Fault :: r.error.value == Render(f)
  {
    match request
    case Unparsed(fault) => Response(Null, Null, Some(Render(fault)))
    case Payload(payload) =>
      if !payload.Obj? then Response(Null, Null, Some(Render(NoAttribute(payload, "get"))))
      else
        var id := Get(payload.entries, "id").GetOr(Null);
        match Evaluate(payload.entries, registry)
        case Success(result) => Response(id, result, None)
        case Failure(fault) => Response(id, Null, Some(Render(fault)))
  }

  /** The main path: a dict request naming a registered method, with params
      absent or a dict, calls that service on params' "args" and "kwargs"
      (an empty list and an empty dict when absent), whatever other keys the
      request carries; the response echoes the id and carries the call's
      result, or its rendered exception. */
  lemma RegisteredMethod(entries: seq<(string, Value)>, registry: map<string, Service>, name: string)
    requires Get(entries, "method") == Some(Str(name)) && name in registry
    requires Get(entries, "params").None? || Get(entries, "params").value.Obj?
    ensures var params := Get(entries, "params").GetOr(Obj([]));
            var outcome := Call(registry[name], Get(params.entries, "args").GetOr(Arr([])),
                                Get(params.entries, "kwargs").GetOr(Obj([])));
            && Evaluate(entries, registry) == outcome
            && Dispatch(Payload(Obj(entries)), registry)
               == match outcome
                  case Success(v) => Response(Get(entries, "id").GetOr(Null), v, None)
                  case Failure(f) => Response(Get(entries, "id").GetOr(Null), Null, Some(Render(f)))
  {
  }

  /** A request that does not decode is answered with id null and the
      decoding error rendered as "Kind: message". */
  lemma UnparsedRequest(fault: Fault, registry: map<string, Service>)
    ensures Dispatch(Unparsed(fault), registry)
         == Response(Null, Null, Some(fault.kind + ": " + fault.message))
  {
  }

  /** An object without "method" keeps its id and fails with KeyError. */
  lemma MissingMethod(entries: seq<(string, Value)>, registry: map<string, Service>)
    requires Get(entries, "method").None?
    ensures Dispatch(Payload(Obj(entries)), registry)
         == Response(Get(entries, "id").GetOr(Null), Null, Some("KeyError: 'method'"))
  {
    assert Render(Fault("KeyError", "'method'")) == "KeyError: 'method'";
  }

  /** A request that decodes to something other than a dict fails at
      `payload.get`, with id null. */
  lemma NonDictRequest(payload: Value, registry: map<string, Service>)
    requires !payload.Obj?
    ensures Dispatch(Payload(payload), registry)
         == Response(Null, Null, Some(Render(Fault("AttributeError", "'" + TypeName(payload)
                                                   + "' object has no attribute 'get'"))))
  {
    NoAttributeGet(payload);
  }

  /** A "params" that is present but not a dict (null, say) fails at
      `params.get`, with the id echoed. */
  lemma NonDictParams(entries: seq<(string, Value)>, registry: map<string, Service>, params: Value)
    requires Get(entries, "method").Some? && Get(entries, "params") == Some(params) && !params.Obj?
    ensures Dispatch(Payload(Obj(entries)), registry)
         == Response(Get(entries, "id").GetOr(Null), Null,
                     Some(Render(Fault("AttributeError", "'" + TypeName(params) + "' object has no attribute 'get'"))))
  {
    NoAttributeGet(params);
  }

  /** A list or dict as method name fails the registry lookup as unhashable. */
  lemma UnhashableMethod(entries: seq<(string, Value)>, registry: map<string, Service>, name: Value)
    requires Get(entries, "method") == Some(name) && !Hashable(name)
    requires Get(entries, "params").None? || Get(entries, "params").value.Obj?
    ensures Dispatch(Payload(Obj(entries)), registry)
         == Response(Get(entries, "id").GetOr(Null), Null,
                     Some(Render(Fault("TypeError", "unhashable type: '" + TypeName(name) + "'"))))
  {
  }

  /** A method name that is a number, a boolean or null is never registered:
      the NameError shows its str(). */
  lemma NonStringMethod(entries: seq<(string, Value)>, registry: map<string, Service>, name: Value)
    requires Get(entries, "method") == Some(name) && Hashable(name) && !name.Str?
    requires Get(entries, "params").None? || Get(entries, "params").value.Obj?
    ensures Dispatch(Payload(Obj(entries)), registry)
         == Response(Get(entries, "id").GetOr(Null), Null,
                     Some(Render(Fault("NameError", "Method '" + PyStr(name) + "' not found."))))
  {
  }

  /** A name the registry lacks is a NameError naming it, with the id echoed. */
  lemma UnknownMethod(entries: seq<(string, Value)>, registry: map<string, Service>, name: string)
    requires Get(entries, "method") == Some(Str(name)) && name !in registry
    requires Get(entries, "params").None? || Get(entries, "params").value.Obj?
    ensures Dispatch(Payload(Obj(entries)), registry)
         == Response(Get(entries, "id").GetOr(Null), Null, Some(Render(Fault("NameError", "Method '" + name + "' not found."))))
  {
  }

  /** A request without "params" is dispatched exactly as one whose params
      carry an empty "args" list and an empty "kwargs" object. */
  lemma {:induction false} DefaultParams(entries: seq<(string, Value)>, registry: map<string, Service>)
    requires Get(entries, "params").None?
    ensures Dispatch(Payload(Obj(entries)), registry)
         == Dispatch(Payload(Obj(entries + [("params", Obj([("args", Arr([])), ("kwargs", Obj([]))]))])), registry)
  {
    var params := Obj([("args", Arr([])), ("kwargs", Obj([]))]);
    var extended := entries + [("params", params)];
    GetAppend(entries, "params", params, "id");
    GetAppend(entries, "params", params, "method");
    assert Get(params.entries, "args") == Some(Arr([]));
    assert Get(params.entries, "kwargs") == Some(Obj([]));
    assert Evaluate(extended, registry) == Evaluate(entries, registry);
  }

  /** Inside params, a missing "args" is the empty list: adding it changes
      nothing about the response. */
  lemma DefaultArgs(pre: seq<(string, Value)>, params: seq<(string, Value)>, post: seq<(string, Value)>,
                    registry: map<string, Service>)
    requires Get(pre, "params").None? && Get(params, "args").None?
    ensures Dispatch(Payload(Obj(pre + [("params", Obj(params))] + post)), registry)
         == Dispatch(Payload(Obj(pre + [("params", Obj(params + [("args", Arr([]))]))] + post)), registry)
  {
    var extended := params + [("args", Arr([]))];
    GetReplace(pre, "params", Obj(params), Obj(extended), post, "id");
    GetReplace(pre, "params", Obj(params), Obj(extended), post, "method");
    GetReplace(pre, "params", Obj(extended), Obj(params), post, "id");
    GetAppend(params, "args", Arr([]), "kwargs");
  }

  /** Inside params, a missing "kwargs" is the empty dict: adding it
      changes nothing about the response. */
  lemma DefaultKwargs(pre: seq<(string, Value)>, params: seq<(string, Value)>, post: seq<(string, Value)>,
                      registry: map<string, Service>)
    requires Get(pre, "params").None? && Get(params, "kwargs").None?
    ensures Dispatch(Payload(Obj(pre + [("params", Obj(params))] + post)), registry)
         == Dispatch(Payload(Obj(pre + [("params", Obj(params + [("kwargs", Obj([]))]))] + post)), registry)
  {
    var extended := params + [("kwargs", Obj([]))];
    GetReplace(pre, "params", Obj(params), Obj(extended), post, "id");
    GetReplace(pre, "params", Obj(params), Obj(extended), post, "method");
    GetReplace(pre, "params", Obj(extended), Obj(params), post, "id");
    GetAppend(params, "kwargs", Obj([]), "args");
  }

  /** A call without arguments reaches the service with none, and Python's
      binding then reports the missing parameter. */
  lemma NoArguments(service: Service)
    ensures Call(service, Arr([]), Obj([]))
         == Failure(Fault("TypeError", service.Name() + "() missing 1 required positional argument: '"
                                       + service.Parameter() + "'"))
  {
  }

  /** One argument, by position or by the parameter's name, runs the service on it. */
  lemma OneArgument(service: Service, argument: Value)
    ensures Call(service, Arr([argument]), Obj([])) == Apply(service, argument)
    ensures Call(service, Arr([]), Obj([(service.Parameter(), argument)])) == Apply(service, argument)
  {
    assert [(service.Parameter(), argument)][1..] == [];
  }

  /** `**kwargs` is checked before `*args`: a non-mapping is reported even
      when the arguments are not iterable either. */
  lemma MappingCheckedFirst(service: Service, args: Value, kwargs: Value)
    requires !kwargs.Obj?
    ensures Call(service, args, kwargs)
         == Failure(Fault("TypeError", FunctionStr(service) + " argument after ** must be a mapping, not "
                                       + TypeName(kwargs)))
  {
  }

  /** A keyword other than the parameter's name is refused, naming it. */
  lemma UnexpectedKeyword(service: Service, items: seq<Value>, key: string, value: Value,
                          keywords: seq<(string, Value)>)
    requires key != service.Parameter()
    ensures Call(service, Arr(items), Obj([(key, value)] + keywords))
         == Failure(Fault("TypeError", service.Name() + "() got an unexpected keyword argument '" + key + "'"))
  {
  }

  /** The parameter given both by position and by name is refused. */
  lemma MultipleValues(service: Service, items: seq<Value>, value: Value, keywords: seq<(string, Value)>)
    requires items != []
    ensures Call(service, Arr(items), Obj([(service.Parameter(), value)] + keywords))
         == Failure(Fault("TypeError", service.Name() + "() got multiple values for argument '"
                                       + service.Parameter() + "'"))
  {
  }

  /** More than one positional argument is refused with the count given. */
  lemma {:induction false} TooManyArguments(service: Service, items: seq<Value>)
    requires |items| > 1
    ensures Call(service, Arr(items), Obj([]))
         == Failure(Fault("TypeError", service.Name() + "() takes 1 positional argument but "
                                       + NatToString(|items|) + " were given"))
  {
    assert BindKeywords(service, [], Some(items[0])) == Success(Some(items[0]));
  }

  /** The registry holds exactly greet and long_running_task. */
  lemma RegistryNames(name: string)
    ensures name in Registry <==> name == "greet" || name == "long_running_task"
  {
  }
}
