/**
 * The functions the server offers (trust_sockets/services.py) and the
 * registry the dispatcher looks them up in. The sleep of long_running_task
 * takes no part beyond the type check its `delay <= 0` comparison makes.
 */
module Services {
  import opened Base
  import opened Values

  /** The registered callables. */
  datatype Service = Greet | LongRunningTask {
    /** The function's __qualname__, used in argument-binding errors. */
    function Name(): string
    {
      match this
      case Greet => "greet"
      case LongRunningTask => "long_running_task"
    }

    /** Its only parameter. */
    function Parameter(): string
    {
      match this
      case Greet => "name"
      case LongRunningTask => "seconds"
    }
  }

  /** RPC_FUNCTIONS (services.py:22-25). */
  const Registry: map<string, Service> := map["greet" := Greet, "long_running_task" := LongRunningTask]

  const GreetingPrefix := "Hello, "
  const TaskPrefix := "Task completed after "
  const TaskSuffix := " seconds."

  /** greet(name) (services.py:7-11). */
  function Greeting(name: Value): (r: Result<Value, Fault>)
    ensures r.Success? <==> name.Str?
    ensures r.Failure? ==> r.error == Fault("TypeError", "Name must be a string")
    ensures r.Success? ==>
              && r.value.Str?
              && |r.value.s| == |GreetingPrefix| + |name.s| + 1
              && r.value.s[..|GreetingPrefix|] == GreetingPrefix
              && r.value.s[|GreetingPrefix|..|r.value.s| - 1] == name.s
              && r.value.s[|r.value.s| - 1] == '!'
  {
    if !name.Str? then Failure(Fault("TypeError", "Name must be a string"))
    else
      var g := GreetingPrefix + name.s + "!";
      assert g[..|GreetingPrefix|] == GreetingPrefix && g[|GreetingPrefix|..|g| - 1] == name.s;
      Success(Str(g))
  }

  /** The check `if delay <= 0` in asyncio.sleep(delay) makes: numbers pass,
      anything else raises TypeError (floats are not modelled). */
  function SleepCheck(delay: Value): Option<Fault>
  {
    if delay.Int? || delay.Bool? then None
    else Some(Fault("TypeError", "'<=' not supported between instances of '" + TypeName(delay) + "' and 'int'"))
  }

  /** long_running_task(seconds) (services.py:13-19) without the wait: the
      report is the fixed prefix, str(seconds) and the fixed suffix. */
  function CompleteTask(seconds: Value): (r: Result<Value, Fault>)
    ensures r.Success? <==> SleepCheck(seconds).None?
    ensures r.Failure? ==> r.error.kind == "TypeError"
    ensures r.Success? ==>
              && r.value.Str?
              && |r.value.s| >= |TaskPrefix| + |TaskSuffix|
              && r.value.s[..|TaskPrefix|] == TaskPrefix
              && r.value.s[|r.value.s| - |TaskSuffix|..] == TaskSuffix
              && r.value.s[|TaskPrefix|..|r.value.s| - |TaskSuffix|] == PyStr(seconds)
  {
    match SleepCheck(seconds)
    case Some(fault) => Failure(fault)
    case None =>
      var t := TaskPrefix + PyStr(seconds) + TaskSuffix;
      assert t[..|TaskPrefix|] == TaskPrefix;
      assert t[|t| - |TaskSuffix|..] == TaskSuffix;
      assert t[|TaskPrefix|..|t| - |TaskSuffix|] == PyStr(seconds);
      Success(Str(t))
  }

  /** The report of a task of i seconds, negative ones included (sleep
      returns at once for them), names i: a minus sign exactly when i is
      negative, then digits that read back as the magnitude of i. */
  lemma CompleteTaskReportsSeconds(i: int)
    ensures CompleteTask(Int(i)).Success?
    ensures var t := CompleteTask(Int(i)).value.s;
            var shown := t[|TaskPrefix|..|t| - |TaskSuffix|];
            && |shown| >= 1
            && (shown[0] == '-' <==> i < 0)
            && var digits := if i < 0 then shown[1..] else shown;
               && (forall k :: 0 <= k < |digits| ==> '0' <= digits[k] <= '9')
               && DecimalValue(digits) == if i < 0 then -i else i
  {
    var magnitude: nat := if i < 0 then -i else i;
    var digits := NatToString(magnitude);
    if i < 0 {
      assert ("-" + digits)[1..] == digits;
    } else {
      assert '0' <= digits[0] <= '9';
    }
    DecimalValueOfNatToString(magnitude);
  }

  /** A boolean delay is accepted too (True compares with 0 as 1), and the
      report shows it as True or False. */
  lemma CompleteTaskAcceptsBool(b: bool)
    ensures CompleteTask(Bool(b)).Success?
    ensures var t := CompleteTask(Bool(b)).value.s;
            t[|TaskPrefix|..|t| - |TaskSuffix|] == if b then "True" else "False"
  {
  }

  /** Runs a service on its bound argument. */
  function Apply(service: Service, argument: Value): (r: Result<Value, Fault>)
    // both services raise only TypeError
    ensures r.Failure? ==> r.error.kind == "TypeError"
  {
    match service
    case Greet => Greeting(argument)
    case LongRunningTask => CompleteTask(argument)
  }
}
