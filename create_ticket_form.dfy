/**
 * The create-ticket form component: its state (the form draft, the three
 * dependent lists, the loading flag and the result message) and the handlers
 * that change it. Every remote call is returned as the `Lookup` or
 * `TicketRequest` it issues; its response is applied later by a separate
 * method call, in whatever order responses arrive.
 */
module TicketForm {
  import opened Wrappers
  import opened JsCoercion
  import opened Entities
  import opened Resolver
  import opened Composer
  import opened View

  /** The `/ticket/create` call: the submitted form values, extended by the extra
      fields and the captcha response (keys of later parts win). */
  datatype TicketRequest = CreateTicket(values: Form, extra: map<string, string>, captcha: Option<string>)

  /** The call of the parent's `onSuccess(result, email, message)`. */
  datatype SuccessNotice = SuccessNotice(result: string, email: string, message: string)

  /** `captcha && !captcha.getValue()`: a captcha widget whose response is empty.
      A form without a captcha widget (a logged-in user) is never blocked. */
  predicate CaptchaBlocks(captcha: Option<string>): (blocks: bool)
    ensures captcha.None? ==> !blocks
    ensures blocks ==> captcha.value == ""
    ensures captcha.Some? && captcha.value != "" ==> !blocks
  {
    captcha == Some("")
  }

  class CreateTicketForm {
    const props: Props
    /** `SessionStore.getDepartments()`, the departments cached by the session. */
    const sessionDepartments: seq<Entry>

    var loading: bool
    var message: Option<string>
    var form: Form
    var clients: seq<Entry>
    var departments: seq<Entry>
    var clientUsers: seq<Entry>

    constructor (props: Props, sessionDepartments: seq<Entry>)
      ensures this.props == props && this.sessionDepartments == sessionDepartments
      ensures !loading && message == None
      ensures form == Form("", "", "", "", props.store.language, 0, 0, 0, map[])
      ensures clients == [] && departments == [] && clientUsers == []
    {
      this.props := props;
      this.sessionDepartments := sessionDepartments;
      loading := false;
      message := None;
      form := Form("", "", "", "", props.store.language, 0, 0, 0, map[]);
      clients := [];
      departments := [];
      clientUsers := [];
    }

    /** `componentDidMount` calls `getDepartments`, which only issues the department lookup. */
    method GetDepartments() returns (issued: Lookup)
      ensures issued == FetchDepartments(props.isStaff)
      ensures Path(issued) == "/department/get-departments" && ResponseKey(issued) == "departments"
      ensures !DataAsForm(issued)
    {
      issued := FetchDepartments(props.isStaff);
    }

    /** `getClientUsers`: issues the staff lookup (franchise department, internal
        actor) or the client-user lookup, for the selected client's id. The
        `setState` of the form's fields at top level leaves the form unchanged. */
    method GetClientUsers() returns (issued: Lookup)
      requires form.departmentIndex < |departments| && form.clientIndex < |clients|
      ensures issued == ClientUsersLookupFor(departments[form.departmentIndex], clients[form.clientIndex], props.store.isInternal)
      ensures issued.FetchDepartmentStaffs? <==> IsFranchise(departments[form.departmentIndex].id) && props.store.isInternal
      ensures DataAsForm(issued)
    {
      var client := clients[form.clientIndex];
      var department := departments[form.departmentIndex];
      if IsFranchise(department.id) && props.store.isInternal {
        issued := FetchDepartmentStaffs(client.id);
      } else {
        issued := FetchClientUsers(client.id);
      }
    }

    /** `getClients`: deletes the client keys from the form, then either stores the
        franchising session departments as clients and goes on to `getClientUsers`,
        or issues the remote client lookup. */
    method GetClients() returns (issued: seq<Lookup>)
      requires ClientsStageDefined(departments, sessionDepartments, form)
      modifies this`form, this`clients
      ensures form == old(form).(other := old(form).other - ClientKeys)
      ensures clients == ClientsAfterStage(departments[form.departmentIndex], sessionDepartments, old(clients))
      ensures issued == [ClientsStageLookup(departments[form.departmentIndex], sessionDepartments, form.clientIndex, props.store.isInternal)]
    {
      form := form.(other := form.other - ClientKeys);
      var department := departments[form.departmentIndex];
      if IsFranchise(department.id) {
        clients := Franchising(sessionDepartments);
        var next := GetClientUsers();
        issued := [next];
      } else {
        issued := [FetchClientsDepartments(department.id)];
      }
    }

    /** The `.then` handler of the department lookup: stores the departments and
        runs `getClients`. */
    method ReceiveDepartments(data: seq<Entry>) returns (issued: seq<Lookup>)
      requires ClientsStageDefined(data, sessionDepartments, form)
      modifies this`form, this`clients, this`departments
      ensures departments == data
      ensures form == old(form).(other := old(form).other - ClientKeys)
      ensures clients == ClientsAfterStage(data[form.departmentIndex], sessionDepartments, old(clients))
      ensures issued == [ClientsStageLookup(data[form.departmentIndex], sessionDepartments, form.clientIndex, props.store.isInternal)]
    {
      departments := data;
      issued := GetClients();
    }

    /** The `.then` handler of the remote client lookup: stores the clients, whatever
        the selected department is by now, and runs `getClientUsers`. */
    method ReceiveClients(data: seq<Entry>) returns (issued: Lookup)
      requires form.departmentIndex < |departments| && form.clientIndex < |data|
      modifies this`clients
      ensures clients == data
      ensures issued == ClientUsersLookupFor(departments[form.departmentIndex], data[form.clientIndex], props.store.isInternal)
      ensures DataAsForm(issued)
    {
      clients := data;
      issued := GetClientUsers();
    }

    /** The `.then` handlers of the staff lookup (`res.data.staffs`) and of the
        client-user lookup (`res.data.clientUsers`): store the list, whatever the
        selection is by now. */
    method ReceiveClientUsers(data: seq<Entry>)
      modifies this`clientUsers
      ensures clientUsers == data
    {
      clientUsers := data;
    }

    /** The client list `componentDidUpdate` leaves after a department change. */
    function ClientsAfterDepartmentChange(newForm: Form): seq<Entry>
      requires newForm.departmentIndex < |departments|
      reads this
    {
      ClientsAfterStage(departments[newForm.departmentIndex], sessionDepartments, [])
    }

    /** What the update after a form change needs: `getClients` for a new department
        index, and a selected department and client for a new client index. */
    predicate UpdateDefined(newForm: Form)
      reads this
    {
      (newForm.departmentIndex != form.departmentIndex ==>
        ClientsStageDefined(departments, sessionDepartments, newForm))
      && (newForm.clientIndex != form.clientIndex ==>
        newForm.departmentIndex < |departments|
        && newForm.clientIndex < |if newForm.departmentIndex != form.departmentIndex
                                  then ClientsAfterDepartmentChange(newForm) else clients|)
    }

    /** The form's `onChange` stores the new values; `componentDidUpdate` then
        compares the indices. A new department index empties the clients and the
        client users and reloads the clients; a new client index empties only the
        client users and reloads them. No index is reset. */
    method ChangeForm(newForm: Form) returns (issued: seq<Lookup>)
      requires UpdateDefined(newForm)
      modifies this`form, this`clients, this`clientUsers
      ensures departments == old(departments) && loading == old(loading) && message == old(message)
      ensures form.departmentIndex == newForm.departmentIndex && form.clientIndex == newForm.clientIndex
      ensures form.clientUserIndex == newForm.clientUserIndex
      ensures newForm.departmentIndex != old(form.departmentIndex) ==>
        form == newForm.(other := newForm.other - ClientKeys)
        && clients == ClientsAfterDepartmentChange(newForm)
        && clientUsers == []
      ensures newForm.departmentIndex == old(form.departmentIndex) ==>
        form == newForm && clients == old(clients)
      ensures newForm.clientIndex != old(form.clientIndex) ==> clientUsers == []
      ensures newForm.departmentIndex == old(form.departmentIndex) && newForm.clientIndex == old(form.clientIndex) ==>
        clientUsers == old(clientUsers)
      ensures issued ==
        (if newForm.departmentIndex != old(form.departmentIndex)
         then [ClientsStageLookup(departments[newForm.departmentIndex], sessionDepartments, newForm.clientIndex, props.store.isInternal)]
         else [])
        + (if newForm.clientIndex != old(form.clientIndex)
           then [ClientUsersLookupFor(departments[newForm.departmentIndex], clients[newForm.clientIndex], props.store.isInternal)]
           else [])
    {
      var previous := form;
      form := newForm;
      issued := [];
      if previous.departmentIndex != form.departmentIndex {
        clients := [];
        clientUsers := [];
        issued := GetClients();
      }
      if previous.clientIndex != form.clientIndex {
        clientUsers := [];
        var next := GetClientUsers();
        issued := issued + [next];
      }
    }

    /** The entries the submit handler reads all exist. */
    predicate SelectionDefined()
      reads this
    {
      form.departmentIndex < |departments|
      && ExtraDataDefined(props.isStaff, props.store.isInternal, At(clients, form.clientIndex), At(clientUsers, form.clientUserIndex))
    }

    /** The extra fields of `onSubmit`, built by its sequence of assignments, each
        later one overwriting the earlier. */
    method ComposeExtraData() returns (extra: map<string, string>)
      requires SelectionDefined()
      ensures extra == ExtraData(props.isStaff, props.store.isInternal, departments[form.departmentIndex],
        At(clients, form.clientIndex), At(clientUsers, form.clientUserIndex))
    {
      var isInternal := props.store.isInternal;
      extra := map[];
      if props.isStaff {
        if isInternal {
          extra := map[
            DepartmentIdKey := departments[form.departmentIndex].id,
            ClientIdKey := clients[form.clientIndex].id,
            ClientUserIdKey := clientUsers[form.clientUserIndex].id];
        }
        if !isInternal && IsFranchise(departments[form.departmentIndex].id) {
          extra := map[DepartmentIdKey := departments[form.departmentIndex].id];
        } else if IsFranchise(departments[form.departmentIndex].id) && isInternal {
          extra := map[
            DepartmentIdKey := departments[form.departmentIndex].id,
            StaffClientIdKey := clientUsers[form.clientUserIndex].id];
        }
      } else {
        extra := map[DepartmentIdKey := departments[form.departmentIndex].id];
      }
    }

    /** `onSubmit`: an empty captcha response blocks the submission; otherwise the
        form turns to loading and sends the values with the extra fields. */
    method OnSubmit(values: Form, captcha: Option<string>) returns (sent: Option<TicketRequest>)
      requires !CaptchaBlocks(captcha) ==> SelectionDefined()
      modifies this`loading
      ensures CaptchaBlocks(captcha) ==> sent == None && loading == old(loading)
      ensures !CaptchaBlocks(captcha) ==> loading && sent == Some(CreateTicket(values,
        ExtraData(props.isStaff, props.store.isInternal, departments[form.departmentIndex],
          At(clients, form.clientIndex), At(clientUsers, form.clientUserIndex)),
        captcha))
    {
      if CaptchaBlocks(captcha) {
        sent := None;
      } else {
        loading := true;
        var extra := ComposeExtraData();
        sent := Some(CreateTicket(values, extra, captcha));
      }
    }

    /** `onTicketSuccess`: stops loading, shows the success banner and calls the
        parent's `onSuccess` when there is one. */
    method OnTicketSuccess(email: string, result: string) returns (notice: Option<SuccessNotice>)
      modifies this`loading, this`message
      ensures !loading && message == Some(SuccessMessage)
      ensures RenderMessage(message) == SuccessBanner
      ensures notice == if props.hasOnSuccess then Some(SuccessNotice(result, email, SuccessMessage)) else None
    {
      loading, message := false, Some(SuccessMessage);
      notice := if props.hasOnSuccess then Some(SuccessNotice(result, email, SuccessMessage)) else None;
    }

    /** `onTicketFail`: stops loading and shows the error banner; the form is kept. */
    method OnTicketFail()
      modifies this`loading, this`message
      ensures !loading && message == Some(FailMessage)
      ensures RenderMessage(message) == ErrorBanner
    {
      loading, message := false, Some(FailMessage);
    }
  }
}
