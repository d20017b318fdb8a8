/**
 * Which remote lookup the form issues at each stage of the
 * department -> client -> client-user cascade. The franchise department turns
 * the client stage into a local filter of the session's departments and the
 * client-user stage, for internal staff, into a lookup of that department's
 * staff.
 */
module Resolver {
  import opened JsCoercion
  import opened Entities

  /** The remote lookups the form issues, with the data each one sends. */
  datatype Lookup =
    | FetchDepartments(isStaff: bool)
    | FetchClientsDepartments(departmentId: string)
    | FetchDepartmentStaffs(staffDepartmentId: string)
    | FetchClientUsers(clientId: string)

  /** The endpoint a lookup calls. */
  function Path(l: Lookup): (p: string)
    ensures p == "/department/get-department-staffs" <==> l.FetchDepartmentStaffs?
    ensures p == "/client/get-client-users" <==> l.FetchClientUsers?
  {
    match l
    case FetchDepartments(_) => "/department/get-departments"
    case FetchClientsDepartments(_) => "/client/get-clients-departments"
    case FetchDepartmentStaffs(_) => "/department/get-department-staffs"
    case FetchClientUsers(_) => "/client/get-client-users"
  }

  /** Whether the lookup's data travels as form data rather than JSON: exactly the
      two endpoints of the client-user stage take form data. */
  function DataAsForm(l: Lookup): (asForm: bool)
    ensures asForm <==> Path(l) == "/department/get-department-staffs" || Path(l) == "/client/get-client-users"
    ensures asForm <==> ResponseKey(l) == "staffs" || ResponseKey(l) == "clientUsers"
  {
    l.FetchDepartmentStaffs? || l.FetchClientUsers?
  }

  /** The key of `res.data` whose list the response handler stores. */
  function ResponseKey(l: Lookup): (key: string)
    ensures key == "departments" <==> l.FetchDepartments?
    ensures key == "clients" <==> l.FetchClientsDepartments?
    ensures key == "staffs" <==> l.FetchDepartmentStaffs?
    ensures key == "clientUsers" <==> l.FetchClientUsers?
  {
    match l
    case FetchDepartments(_) => "departments"
    case FetchClientsDepartments(_) => "clients"
    case FetchDepartmentStaffs(_) => "staffs"
    case FetchClientUsers(_) => "clientUsers"
  }

  /** How `getClients` obtains the client list for the selected department. */
  datatype ClientsDirective =
    | LocalFilter(clients: seq<Entry>)
    | Remote(lookup: Lookup)

  function ClientsDirectiveFor(department: Entry, sessionDepartments: seq<Entry>): (d: ClientsDirective)
    ensures d.LocalFilter? <==> IsFranchise(department.id)
    ensures d.LocalFilter? ==> d.clients == Franchising(sessionDepartments)
    ensures d.Remote? ==> d.lookup == FetchClientsDepartments(department.id)
  {
    if IsFranchise(department.id) then LocalFilter(Franchising(sessionDepartments))
    else Remote(FetchClientsDepartments(department.id))
  }

  /** The lookup `getClientUsers` issues for the selected department and client. */
  function ClientUsersLookupFor(department: Entry, client: Entry, isInternal: bool): (l: Lookup)
    ensures l.FetchDepartmentStaffs? || l.FetchClientUsers?
    ensures l.FetchDepartmentStaffs? <==> IsFranchise(department.id) && isInternal
    ensures l.FetchDepartmentStaffs? ==> l.staffDepartmentId == client.id
    ensures l.FetchClientUsers? ==> l.clientId == client.id
  {
    if IsFranchise(department.id) && isInternal then FetchDepartmentStaffs(client.id)
    else FetchClientUsers(client.id)
  }

  /** What `getClients` needs to avoid reading past the end of a list: a selected
      department and, when the local filter runs, a client at the client index. */
  predicate ClientsStageDefined(departments: seq<Entry>, sessionDepartments: seq<Entry>, f: Form) {
    f.departmentIndex < |departments|
    && (IsFranchise(departments[f.departmentIndex].id) ==> f.clientIndex < |Franchising(sessionDepartments)|)
  }

  /** The client list once `getClients` has run its synchronous part: the filtered
      session departments, or the list as it was while the remote lookup is pending. */
  function ClientsAfterStage(department: Entry, sessionDepartments: seq<Entry>, clients: seq<Entry>): (r: seq<Entry>)
    ensures IsFranchise(department.id) ==> r == Franchising(sessionDepartments)
    ensures !IsFranchise(department.id) ==> r == clients
  {
    match ClientsDirectiveFor(department, sessionDepartments)
    case LocalFilter(list) => list
    case Remote(_) => clients
  }

  /** The lookup the synchronous part of `getClients` issues: the remote client
      lookup, or (after the local filter) the client-user lookup that follows it. */
  function ClientsStageLookup(department: Entry, sessionDepartments: seq<Entry>, clientIndex: nat, isInternal: bool)
    : (l: Lookup)
    requires IsFranchise(department.id) ==> clientIndex < |Franchising(sessionDepartments)|
    ensures !IsFranchise(department.id) ==> l == FetchClientsDepartments(department.id)
    ensures IsFranchise(department.id) ==>
      l == ClientUsersLookupFor(department, Franchising(sessionDepartments)[clientIndex], isInternal)
    ensures !l.FetchDepartments?
  {
    match ClientsDirectiveFor(department, sessionDepartments)
    case LocalFilter(list) => ClientUsersLookupFor(department, list[clientIndex], isInternal)
    case Remote(lookup) => lookup
  }

  /** The call `getClients` leads to sends form data exactly for the franchise
      department, where the local filter is followed by the client-user stage. */
  lemma ClientsStageFormData(department: Entry, sessionDepartments: seq<Entry>, clientIndex: nat, isInternal: bool)
    requires IsFranchise(department.id) ==> clientIndex < |Franchising(sessionDepartments)|
    ensures DataAsForm(ClientsStageLookup(department, sessionDepartments, clientIndex, isInternal))
      <==> IsFranchise(department.id)
  {
  }

  /** Under the franchise department the client list holds only franchising
      departments from the session, and every one of them, so a client-user
      lookup for internal staff asks for the staff of a franchising department. */
  lemma FranchiseClientsAreFranchisingDepartments(
    department: Entry, sessionDepartments: seq<Entry>, clientIndex: nat, isInternal: bool)
    requires IsFranchise(department.id)
    requires clientIndex < |ClientsDirectiveFor(department, sessionDepartments).clients|
    ensures var client := ClientsDirectiveFor(department, sessionDepartments).clients[clientIndex];
      client in sessionDepartments && client.isFranchising
      && (isInternal ==> ClientUsersLookupFor(department, client, isInternal) == FetchDepartmentStaffs(client.id))
      && (!isInternal ==> ClientUsersLookupFor(department, client, isInternal) == FetchClientUsers(client.id))
  {
  }
}
