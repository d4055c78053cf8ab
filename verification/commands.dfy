/** The command dispatcher: a dict command is one service call, a list is
    one call per element issued together, anything else is ignored. A
    failure is caught and turned into an error message by a handler that
    itself reads `domain`, `service` and `data` from the command. */
module Commands {
  import opened Python
  import opened Json

  /** One call on the service bus. */
  datatype ServiceCall = ServiceCall(domain: Json, service: Json, data: Json)

  /** How the bus answers one call: it succeeds, or raises an exception whose
      text is given. The bus is supplied by the host. */
  datatype CallResult = Succeeded | Failed(message: string)

  /** The calls issued, and what the dispatcher returned or raised. */
  datatype Dispatched = Dispatched(issued: seq<ServiceCall>, result: Outcome<Option<string>>)

  /** A dict holding all three keys the dispatcher reads. */
  predicate WellFormed(cmd: Json) {
    cmd.JObject? && "domain" in cmd.members && "service" in cmd.members && "data" in cmd.members
  }

  /** `cmd["domain"], cmd["service"], cmd["data"]`, evaluated left to right. */
  function ReadCall(cmd: Json): (r: Outcome<ServiceCall>)
    ensures r.Value? <==> WellFormed(cmd)
    ensures r.Value? ==> r.value == ServiceCall(cmd.members["domain"], cmd.members["service"], cmd.members["data"])
    ensures !cmd.JObject? ==> r == Raised(TypeError(NotSubscriptable(cmd)))
    ensures cmd.JObject? && "domain" !in cmd.members ==> r == Raised(KeyError("domain"))
    ensures cmd.JObject? && "domain" in cmd.members && "service" !in cmd.members ==> r == Raised(KeyError("service"))
    ensures cmd.JObject? && "domain" in cmd.members && "service" in cmd.members && "data" !in cmd.members ==> r == Raised(KeyError("data"))
  {
    match Index(cmd, "domain")
    case Raised(e) => Raised(e)
    case Value(domain) =>
      match Index(cmd, "service")
      case Raised(e) => Raised(e)
      case Value(service) =>
        match Index(cmd, "data")
        case Raised(e) => Raised(e)
        case Value(data) => Value(ServiceCall(domain, service, data))
  }

  /** The list comprehension that builds one call per element, in order; the
      first element that cannot be read stops it before anything is issued. */
  function ReadCalls(cmds: seq<Json>): (r: Outcome<seq<ServiceCall>>)
    ensures r.Value? <==> forall i :: 0 <= i < |cmds| ==> WellFormed(cmds[i])
    ensures r.Value? ==> |r.value| == |cmds| && forall i :: 0 <= i < |cmds| ==> ReadCall(cmds[i]) == Value(r.value[i])
    ensures r.Raised? ==> exists i :: 0 <= i < |cmds| && ReadCall(cmds[i]) == Raised(r.exc) &&
                                      forall j :: 0 <= j < i ==> WellFormed(cmds[j])
    decreases |cmds|
  {
    if |cmds| == 0 then Value([])
    else
      match ReadCall(cmds[0])
      case Raised(e) => Raised(e)
      case Value(c) =>
        match ReadCalls(cmds[1..])
        case Raised(e) => Raised(e)
        case Value(cs) => Value([c] + cs)
  }

  /** The exception `gather` passes on: calls issued together all run, and
      one failing call is reported. Here it is the first in list order; in
      `asyncio.gather`, it is the first call to finish failing. */
  function FirstFailure(calls: seq<ServiceCall>, bus: ServiceCall -> CallResult): (r: Option<string>)
    ensures r.None? <==> forall i :: 0 <= i < |calls| ==> bus(calls[i]) == Succeeded
    ensures r.Some? ==> exists i :: 0 <= i < |calls| && bus(calls[i]) == Failed(r.value)
    decreases |calls|
  {
    if |calls| == 0 then None
    else
      match bus(calls[0])
      case Failed(m) => Some(m)
      case Succeeded => FirstFailure(calls[1..], bus)
  }

  /** The text of the error message naming a failed call. `repr` renders the
      tuple `(domain, service, data)` as Python prints it. */
  function Message(c: ServiceCall, err: string, repr: ServiceCall -> string): (m: string)
    ensures |m| > 19 && m[..19] == "Unable to execute: "
  {
    "Unable to execute: " + repr(c) + " \n Error: " + err
  }

  /** The `except` handler: it reads the three keys of the command again to
      build the message, so it raises itself unless the command is a dict
      holding all three. */
  function Handler(command: Json, err: string, repr: ServiceCall -> string): (r: Outcome<Option<string>>)
    ensures r.Value? <==> WellFormed(command)
    ensures r.Value? ==> r.value.Some? && Truthy(r.value)
  {
    match ReadCall(command)
    case Raised(e) => Raised(e)
    case Value(c) => Value(Some(Message(c, err, repr)))
  }

  /** `execute_commands`. */
  function Dispatch(command: Json, bus: ServiceCall -> CallResult, repr: ServiceCall -> string): (d: Dispatched)
    // A dict issues one call, with its three values, if it holds all three keys.
    ensures WellFormed(command) ==> d.issued == [ServiceCall(command.members["domain"], command.members["service"], command.members["data"])]
    // A list issues one call per element, in order, if every element can be read; otherwise none.
    ensures command.JArray? ==>
      if forall i :: 0 <= i < |command.elems| ==> WellFormed(command.elems[i])
      then |d.issued| == |command.elems| && forall i :: 0 <= i < |command.elems| ==> ReadCall(command.elems[i]) == Value(d.issued[i])
      else d.issued == []
    // Anything else issues nothing and returns None.
    ensures !command.JObject? && !command.JArray? ==> d == Dispatched([], Value(None))
    // An error message comes back exactly when a well-formed dict's one call failed.
    ensures d.result.Value? && d.result.value.Some? <==> WellFormed(command) && bus(d.issued[0]).Failed?
    ensures d.result.Value? && d.result.value.Some? ==>
      d.result.value.value == Message(d.issued[0], bus(d.issued[0]).message, repr)
    // The handler's own exception escapes for a dict missing a key, and for a list with anything failing.
    ensures d.result.Raised? <==>
      || (command.JObject? && !WellFormed(command))
      || (command.JArray? && exists i :: 0 <= i < |d.issued| && bus(d.issued[i]).Failed?)
      || (command.JArray? && exists i :: 0 <= i < |command.elems| && !WellFormed(command.elems[i]))
    ensures d.result.Raised? && command.JArray? ==> d.result.exc == TypeError(NotSubscriptable(command))
    ensures d.result.Raised? && command.JObject? ==> d.result.exc == ReadCall(command).exc && d.issued == []
  {
    match command
    case JObject(_) =>
      (match ReadCall(command)
       case Raised(e) => Dispatched([], Handler(command, e.Str(), repr))
       case Value(c) =>
         match bus(c)
         case Failed(m) => Dispatched([c], Handler(command, m, repr))
         case Succeeded => Dispatched([c], Value(None)))
    case JArray(elems) =>
      (match ReadCalls(elems)
       case Raised(e) => Dispatched([], Handler(command, e.Str(), repr))
       case Value(calls) =>
         match FirstFailure(calls, bus)
         case Some(m) => Dispatched(calls, Handler(command, m, repr))
         case None => Dispatched(calls, Value(None)))
    case _ => Dispatched([], Value(None))
  }

  /** A list of two well-formed calls issues both; if the bus fails either
      one, the handler's `TypeError` escapes instead of an error message. */
  lemma ListFailureEscapes(a: Json, b: Json, bus: ServiceCall -> CallResult, repr: ServiceCall -> string)
    requires WellFormed(a) && WellFormed(b)
    requires bus(ReadCall(a).value).Failed? || bus(ReadCall(b).value).Failed?
    ensures var d := Dispatch(JArray([a, b]), bus, repr);
            && d.issued == [ReadCall(a).value, ReadCall(b).value]
            && d.result == Raised(TypeError("list indices must be integers or slices, not str"))
  {
    var d := Dispatch(JArray([a, b]), bus, repr);
    assert |d.issued| == 2;
    assert ReadCall(JArray([a, b]).elems[0]) == Value(d.issued[0]);
    assert ReadCall(JArray([a, b]).elems[1]) == Value(d.issued[1]);
  }
}
