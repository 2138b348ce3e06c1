/** The request dispatcher of backend/api.php (lines 8-11 and 24-81): which
    handler a (method, action) pair reaches, and which HTTP status each
    outcome is sent with. */
module ApiRoutes {
  import opened ApiTables
  import opened ApiRead

  /** Where a request goes. */
  datatype Route =
    | Preflight
    | ListMachines
    | AddMachine | AddHistory | StartMaintenance | BatchAddMachines
    | UpdateField | AddMaintStep | EndMaintenance
    | DeleteMachine
    | UnknownAction
    | BadMethod

  /** Why a request failed. `DuplicateTag` is the database refusing a second
      machine with an existing tag; every other kind is raised by the code. */
  datatype ErrorKind =
    | MissingFields
    | MachineNotFound
    | FieldNotAllowed
    | NoActiveMaintenance
    | NoMachineData
    | UnknownActionError
    | DuplicateTag
    | MethodNotAllowed

  datatype Payload =
    | NoBody
    | Done(message: string)
    | Machines(machines: seq<MachineView>)
    | MaintStarted(maintId: nat)
    | StepAdded(step: Entry)
    | Imported(count: nat)

  datatype Response = Success(payload: Payload) | Failure(kind: ErrorKind)

  predicate IsHandler(r: Route) {
    r !in {Preflight, ListMachines, UnknownAction, BadMethod}
  }

  /** The action each write handler answers to. */
  function ActionOf(r: Route): string
    requires IsHandler(r)
  {
    match r
    case AddMachine => "add_machine"
    case AddHistory => "add_history"
    case StartMaintenance => "start_maintenance"
    case BatchAddMachines => "batch_add_machines"
    case UpdateField => "update_field"
    case AddMaintStep => "add_maint_step"
    case EndMaintenance => "end_maintenance"
    case DeleteMachine => "delete_machine"
  }

  /** The method each write handler is reached with. */
  function MethodOf(r: Route): string
    requires IsHandler(r)
  {
    match r
    case AddMachine | AddHistory | StartMaintenance | BatchAddMachines => "POST"
    case UpdateField | AddMaintStep | EndMaintenance => "PUT"
    case DeleteMachine => "DELETE"
  }

  /** The case split on the HTTP method, then on `action` compared strictly
      with each name. OPTIONS is answered before anything else; GET ignores
      the action. */
  function RouteOf(verb: string, action: Value): (r: Route)
    ensures r == BadMethod <==> verb !in {"GET", "POST", "PUT", "DELETE", "OPTIONS"}
    ensures r == Preflight <==> verb == "OPTIONS"
    ensures r == ListMachines <==> verb == "GET"
    ensures IsHandler(r) ==> verb == MethodOf(r) && action == Str(ActionOf(r))
  {
    if verb == "OPTIONS" then Preflight
    else if verb == "GET" then ListMachines
    else if verb == "POST" then
      if action == Str("add_machine") then AddMachine
      else if action == Str("add_history") then AddHistory
      else if action == Str("start_maintenance") then StartMaintenance
      else if action == Str("batch_add_machines") then BatchAddMachines
      else UnknownAction
    else if verb == "PUT" then
      if action == Str("update_field") then UpdateField
      else if action == Str("add_maint_step") then AddMaintStep
      else if action == Str("end_maintenance") then EndMaintenance
      else UnknownAction
    else if verb == "DELETE" then
      if action == Str("delete_machine") then DeleteMachine
      else UnknownAction
    else BadMethod
  }

  /** Each handler is reached by its own (method, action) pair and by no
      other: routing inverts `MethodOf`/`ActionOf`. */
  lemma RouteInvertsRequestLine(r: Route)
    requires IsHandler(r)
    ensures RouteOf(MethodOf(r), Str(ActionOf(r))) == r
  {
  }

  /** Any action that names no handler of its method is an unknown action. */
  lemma UnknownActionExactly(verb: string, action: Value)
    requires verb in {"POST", "PUT", "DELETE"}
    ensures RouteOf(verb, action) == UnknownAction <==>
      forall r :: IsHandler(r) && MethodOf(r) == verb ==> action != Str(ActionOf(r))
  {
    if RouteOf(verb, action) != UnknownAction {
      var r := RouteOf(verb, action);
      assert IsHandler(r);
    }
  }

  /** The status line: 405 for an unknown method, 500 when the database
      raised the error, 400 for every error the code raises, 200 otherwise. */
  function HttpStatus(resp: Response): (code: int)
    ensures code == 200 <==> resp.Success?
    ensures code == 405 <==> resp == Failure(MethodNotAllowed)
    ensures code == 500 <==> resp == Failure(DuplicateTag)
    ensures code in {200, 400, 405, 500}
  {
    match resp
    case Success(_) => 200
    case Failure(MethodNotAllowed) => 405
    case Failure(DuplicateTag) => 500
    case Failure(_) => 400
  }
}
