/** The gateway's passport routes (dppRoutes.js): each route turns the HTTP
    request into one chaincode call (an evaluated query or a submitted
    transaction with positional arguments) and wraps the call's outcome in the
    JSON response envelope. The contract connection is not modelled. */
module DppRoutes {
  import opened Wrappers
  import opened Json
  import SignedChaincode

  datatype Route = GetAllDPPs | GetAllDPPsByOwnerDID | ReadDPP | TransferDPP | CreateDPP | EditDPP
  {
    /** The GET routes, which only query. */
    predicate IsRead() { GetAllDPPs? || GetAllDPPsByOwnerDID? || ReadDPP? }
  }

  /** The parts of an Express request the routes read. */
  datatype HttpRequest = HttpRequest(query: map<string, string>, body: Object)

  /** One positional argument: a request value passed as it is (`None` is
      `undefined`), or the `JSON.stringify` text of one. */
  datatype Arg = Verbatim(value: Option<Json>) | Serialized(value: Option<Json>)

  /** evaluateTransaction (a query, not ordered) or submitTransaction. */
  datatype CallKind = Evaluate | Submit

  datatype Call = Call(kind: CallKind, name: string, args: seq<Arg>)

  /** `req.query.<key>` as an argument. */
  function QueryArg(q: map<string, string>, key: string): Arg
  {
    Verbatim(if key in q then Some(JString(q[key])) else None)
  }

  /** The seven record arguments and the signature triple of the create and
      edit routes; `id` is the first argument. */
  function WriteArgs(id: Arg, body: Object): seq<Arg>
  {
    [id,
     Verbatim(Field(body, "owner_did")),
     Verbatim(Field(body, "serial_number")),
     Verbatim(Field(body, "status")),
     Serialized(Field(body, "permissions")),
     Verbatim(Field(body, "product_name")),
     Serialized(Field(body, "components")),
     Verbatim(Field(body, "original_message")),
     Verbatim(Field(body, "signed_base64")),
     Verbatim(Field(body, "public_key_base64"))]
  }

  /** The call a route makes; `freshId` is the `uuidv4()` the create route draws. */
  function CallFor(route: Route, req: HttpRequest, freshId: string): (c: Call)
    ensures c.kind == Evaluate <==> route.IsRead()
    ensures route.GetAllDPPs? ==> c.args == []
    ensures route.GetAllDPPsByOwnerDID? ==> c.args == [QueryArg(req.query, "owner_did")]
    ensures route.ReadDPP? ==> c.args == [QueryArg(req.query, "dpp_id")]
    ensures !route.IsRead() ==> c.kind == Submit && |c.args| >= 5
  {
    var body := req.body;
    match route
    case GetAllDPPs => Call(Evaluate, "GetAllDPPs", [])
    case GetAllDPPsByOwnerDID => Call(Evaluate, "GetAllDPPsByOwnerDID", [QueryArg(req.query, "owner_did")])
    case ReadDPP => Call(Evaluate, "ReadDPP", [QueryArg(req.query, "dpp_id")])
    case TransferDPP =>
      Call(Submit, "TransferDPPWithSignature",
           [Verbatim(Field(body, "dpp_id")), Verbatim(Field(body, "new_owner_did")),
            Verbatim(Field(body, "original_message")), Verbatim(Field(body, "signed_base64")),
            Verbatim(Field(body, "public_key_base64"))])
    case CreateDPP =>
      Call(Submit, "CreateDPPWithSignature", WriteArgs(Verbatim(Some(JString(freshId))), body))
    case EditDPP =>
      Call(Submit, "UpdateDPPWithSignature", WriteArgs(Verbatim(Field(body, "dpp_id")), body))
  }

  /** The request value an argument carries. */
  function Source(a: Arg): Option<Json>
  {
    match a
    case Verbatim(v) => v
    case Serialized(v) => v
  }

  /** The transfer route forwards exactly the five body fields the chaincode
      declares, in its parameter order, untouched. */
  lemma TransferForwardsBodyVerbatim(req: HttpRequest, freshId: string)
    ensures var c := CallFor(TransferDPP, req, freshId);
            && c == Call(Submit, "TransferDPPWithSignature", c.args)
            && |c.args| == |SignedChaincode.TransferParameters|
            && forall i :: 0 <= i < |c.args| ==>
                 c.args[i] == Verbatim(Field(req.body, SignedChaincode.TransferParameters[i]))
  {
  }

  /** The create and edit routes pass the body field named by each chaincode
      parameter at that parameter's position, the signature triple last and
      verbatim; create uses the fresh id and edit the body's `dpp_id`. */
  lemma WriteArgumentsFollowParameters(req: HttpRequest, freshId: string)
    ensures var (c, e) := (CallFor(CreateDPP, req, freshId), CallFor(EditDPP, req, freshId));
            && c.kind == Submit && c.name == "CreateDPPWithSignature"
            && e.kind == Submit && e.name == "UpdateDPPWithSignature"
            && |c.args| == |e.args| == |SignedChaincode.WriteParameters|
            && c.args[0] == Verbatim(Some(JString(freshId)))
            && e.args[0] == Verbatim(Field(req.body, "dpp_id"))
            && (forall i :: 1 <= i < |c.args| ==>
                  c.args[i] == e.args[i] && Source(c.args[i]) == Field(req.body, SignedChaincode.WriteParameters[i]))
            && (forall i :: 7 <= i < |c.args| ==> c.args[i].Verbatim?)
  {
  }

  /** The create route ignores any `dpp_id` the body carries. */
  lemma CreateIgnoresBodyId(req: HttpRequest, freshId: string, anyId: Json)
    ensures CallFor(CreateDPP, req, freshId) ==
            CallFor(CreateDPP, req.(body := req.body["dpp_id" := anyId]), freshId)
  {
    var body2 := req.body["dpp_id" := anyId];
    assert forall k :: k != "dpp_id" ==> Field(body2, k) == Field(req.body, k);
  }

  // ------------------------------------------------------- response envelope

  /** A thrown error: its `message` property (`None` when undefined) and what
      its `toString()` gives. */
  datatype Thrown = Thrown(message: Option<string>, text: string)

  /** `error.message || error.toString()`. */
  function ErrorText(e: Thrown): (s: string)
    ensures e.message.Some? && e.message.value != "" ==> s == e.message.value
    ensures e.message.None? || e.message.value == "" ==> s == e.text
  {
    if e.message.Some? && e.message.value != "" then e.message.value else e.text
  }

  /** The `message` a route reports. */
  function SuccessMessage(route: Route): string
  {
    match route
    case TransferDPP => "DPP transferred successfully"
    case CreateDPP => "DPP created successfully"
    case EditDPP => "DPP updated successfully"
    case _ => ""
  }

  function FailureMessage(route: Route): string
  {
    match route
    case TransferDPP => "Error during DPP transfer"
    case CreateDPP => "Error creating DPP"
    case EditDPP => "Error updating DPP"
    case _ => "Error while looking for DPPs"
  }

  datatype Response = Response(status: int, body: Object)

  /** The response for the call's outcome: the parsed query result for a read,
      the acknowledgement for a write, or the thrown error, passed on as it is. */
  function Reply(route: Route, outcome: Result<Json, Thrown>): (r: Response)
    ensures outcome.Ok? ==> r.status == 200 && "success" in r.body && r.body["success"] == JBool(true)
    ensures outcome.Ok? && route.IsRead() ==>
              r.body.Keys == {"success", "data"} && r.body["data"] == outcome.value
    ensures outcome.Ok? && !route.IsRead() ==>
              r.body.Keys == {"success", "message"} && r.body["message"] == JString(SuccessMessage(route))
    ensures outcome.Err? ==>
              && r.status == 500 && r.body.Keys == {"success", "message", "error"}
              && r.body["success"] == JBool(false)
              && r.body["message"] == JString(FailureMessage(route))
              && r.body["error"] == JString(ErrorText(outcome.error))
  {
    match outcome
    case Ok(result) =>
      if route.IsRead() then Response(200, map["success" := JBool(true), "data" := result])
      else Response(200, map["success" := JBool(true), "message" := JString(SuccessMessage(route))])
    case Err(e) =>
      Response(500, map["success" := JBool(false), "message" := JString(FailureMessage(route)),
                        "error" := JString(ErrorText(e))])
  }

  /** An upstream rejection reaches the caller word for word. */
  lemma RejectionPassedThrough(route: Route, upstream: string, text: string)
    requires upstream != ""
    ensures Reply(route, Err(Thrown(Some(upstream), text))).body["error"] == JString(upstream)
  {
  }
}
