/**
 * How the driver reads the replies of the Waldur API: each call has exactly
 * one success code (200 OK for the resource fetch, 201 Created for the order,
 * 202 Accepted for the instance actions; sections 15.3.1 to 15.3.3 of
 * RFC 9110). Any other code becomes an error that names the machine, the
 * configured resource identifier where there is one, and the code; the
 * response body goes only to the log. Transport errors pass through unchanged.
 */
module Responses {
  import opened Wrappers
  import opened Text
  import opened Api

  const CreatedCode := 201
  const OkCode := 200
  const AcceptedCode := 202

  /** The message of a rejected order. */
  function CreateFailure(machine: string, status: int): string {
    "Unable to create an instance " + machine + ", code " + FormatInt(status)
  }

  /** A rejected order's message names the machine and the status code. */
  lemma CreateFailureMentions(machine: string, status: int)
    ensures Contains(CreateFailure(machine, status), machine)
    ensures Contains(CreateFailure(machine, status), FormatInt(status))
  {
    var head, code := "Unable to create an instance ", FormatInt(status);
    ContainsMiddle(head, machine, ", code " + code);
    assert head + machine + (", code " + code) == CreateFailure(machine, status);
    ContainsMiddle(head + machine + ", code ", code, "");
    assert head + machine + ", code " + code + "" == CreateFailure(machine, status);
  }

  function CheckCreated(machine: string, reply: Reply<()>): (err: Option<DriverError>)
    ensures reply.TransportError? ==> err == Some(reply.cause)
    ensures reply.Response? ==> (err.None? <==> reply.status == CreatedCode)
    ensures reply.Response? && err.Some? ==> err.value == Failure(CreateFailure(machine, reply.status))
  {
    match reply
    case TransportError(cause) => Some(cause)
    case Response(status, _, _) =>
      if status != CreatedCode then Some(Failure(CreateFailure(machine, status))) else None
  }

  /** The message of a failed resource fetch. */
  function FetchFailure(machine: string, resourceUuid: string, status: int): string {
    "Unable to fetch the instance " + machine + " (" + resourceUuid + "), code " + FormatInt(status)
  }

  /** A failed fetch's message names the machine, the resource and the status code. */
  lemma FetchFailureMentions(machine: string, resourceUuid: string, status: int)
    ensures var msg := FetchFailure(machine, resourceUuid, status);
      Contains(msg, machine) && Contains(msg, resourceUuid) && Contains(msg, FormatInt(status))
  {
    MentionsAll("Unable to fetch the instance ", machine, resourceUuid, status);
  }

  function CheckFetched(machine: string, resourceUuid: string, reply: Reply<Resource>): (r: Result<Resource, DriverError>)
    ensures reply.TransportError? ==> r == Fail(reply.cause)
    ensures reply.Response? ==> (r.Ok? <==> reply.status == OkCode)
    ensures r.Ok? ==> r.value == reply.payload
    ensures reply.Response? && r.Fail? ==> r.error == Failure(FetchFailure(machine, resourceUuid, reply.status))
  {
    match reply
    case TransportError(cause) => Fail(cause)
    case Response(status, _, resource) =>
      if status != OkCode then Fail(Failure(FetchFailure(machine, resourceUuid, status))) else Ok(resource)
  }

  /** The instance actions. */
  datatype Action = Start | Stop | Restart

  function Verb(a: Action): string {
    match a
    case Start => "start"
    case Stop => "stop"
    case Restart => "restart"
  }

  /** The message of a rejected instance action. */
  function ActionFailure(a: Action, machine: string, resourceUuid: string, status: int): string {
    "Unable to " + Verb(a) + " the instance " + machine + " (" + resourceUuid + "), code " + FormatInt(status)
  }

  /** A rejected action's message names the action, the machine, the resource and the status code. */
  lemma ActionFailureMentions(a: Action, machine: string, resourceUuid: string, status: int)
    ensures var msg := ActionFailure(a, machine, resourceUuid, status);
      Contains(msg, Verb(a)) && Contains(msg, machine) && Contains(msg, resourceUuid) && Contains(msg, FormatInt(status))
  {
    var head := "Unable to " + Verb(a) + " the instance ";
    MentionsAll(head, machine, resourceUuid, status);
    ContainsSuffix("Unable to ", Verb(a));
    ContainsExtended("Unable to " + Verb(a), Verb(a), " the instance ");
    ContainsExtended(head, Verb(a), machine);
    ContainsExtended(head + machine, Verb(a), " (");
    ContainsExtended(head + machine + " (", Verb(a), resourceUuid);
    ContainsExtended(head + machine + " (" + resourceUuid, Verb(a), "), code ");
    ContainsExtended(head + machine + " (" + resourceUuid + "), code ", Verb(a), FormatInt(status));
  }

  function CheckAccepted(a: Action, machine: string, resourceUuid: string, reply: Reply<()>): (err: Option<DriverError>)
    ensures reply.TransportError? ==> err == Some(reply.cause)
    ensures reply.Response? ==> (err.None? <==> reply.status == AcceptedCode)
    ensures reply.Response? && err.Some? ==> err.value == Failure(ActionFailure(a, machine, resourceUuid, reply.status))
  {
    match reply
    case TransportError(cause) => Some(cause)
    case Response(status, _, _) =>
      if status != AcceptedCode then Some(Failure(ActionFailure(a, machine, resourceUuid, status))) else None
  }

  /** `head + machine + " (" + id + "), code " + status` mentions the machine, the identifier and the status. */
  lemma MentionsAll(head: string, machine: string, id: string, status: int)
    ensures var msg := head + machine + " (" + id + "), code " + FormatInt(status);
      Contains(msg, machine) && Contains(msg, id) && Contains(msg, FormatInt(status))
  {
    var code := FormatInt(status);
    var msg := head + machine + " (" + id + "), code " + code;
    ContainsMiddle(head, machine, " (" + id + "), code " + code);
    assert head + machine + (" (" + id + "), code " + code) == msg;
    ContainsMiddle(head + machine + " (", id, "), code " + code);
    assert head + machine + " (" + id + ("), code " + code) == msg;
    ContainsMiddle(head + machine + " (" + id + "), code ", code, "");
    assert head + machine + " (" + id + "), code " + code + "" == msg;
  }

  /** A rejected order's message determines the status code. */
  lemma CreateFailureIdentifiesStatus(machine: string, a: int, b: int)
    ensures CreateFailure(machine, a) == CreateFailure(machine, b) ==> a == b
  {
    PrintedIntAfterPrefix("Unable to create an instance " + machine + ", code ", a, b);
  }

  /** A failed fetch's message determines the status code. */
  lemma FetchFailureIdentifiesStatus(machine: string, resourceUuid: string, a: int, b: int)
    ensures FetchFailure(machine, resourceUuid, a) == FetchFailure(machine, resourceUuid, b) ==> a == b
  {
    PrintedIntAfterPrefix("Unable to fetch the instance " + machine + " (" + resourceUuid + "), code ", a, b);
  }

  /** A rejected action's message determines the status code. */
  lemma ActionFailureIdentifiesStatus(act: Action, machine: string, resourceUuid: string, a: int, b: int)
    ensures ActionFailure(act, machine, resourceUuid, a) == ActionFailure(act, machine, resourceUuid, b) ==> a == b
  {
    PrintedIntAfterPrefix("Unable to " + Verb(act) + " the instance " + machine + " (" + resourceUuid + "), code ", a, b);
  }

  /** The response body is logged, never part of the error: replies differing only in body are read alike. */
  lemma BodyNeverInErrors(machine: string, resourceUuid: string, a: Action, status: int, b1: string, b2: string, res: Resource)
    ensures CheckCreated(machine, Response(status, b1, ())) == CheckCreated(machine, Response(status, b2, ()))
    ensures CheckFetched(machine, resourceUuid, Response(status, b1, res)) == CheckFetched(machine, resourceUuid, Response(status, b2, res))
    ensures CheckAccepted(a, machine, resourceUuid, Response(status, b1, ())) == CheckAccepted(a, machine, resourceUuid, Response(status, b2, ()))
  {
  }
}
