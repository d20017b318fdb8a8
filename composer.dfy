/**
 * The extra fields a new ticket carries besides the form values, as the
 * submit handler leaves them after its sequence of overwriting assignments.
 * The effective table, over the actor's flags and whether the selected
 * department is the franchise department:
 *
 *   not staff                     -> {departmentId}
 *   internal staff, other dept    -> {departmentId, clientId, clientUserId}
 *   internal staff, franchise     -> {departmentId, staffClientId}
 *   customer staff, franchise     -> {departmentId}
 *   customer staff, other dept    -> {}   (no branch assigns)
 */
module Composer {
  import opened Wrappers
  import opened JsCoercion
  import opened Entities

  const DepartmentIdKey := "departmentId"
  const ClientIdKey := "clientId"
  const ClientUserIdKey := "clientUserId"
  const StaffClientIdKey := "staffClientId"

  /** The entries the table reads: the client and client user only when they exist. */
  predicate ExtraDataDefined(isStaff: bool, isInternal: bool, client: Option<Entry>, user: Option<Entry>) {
    isStaff && isInternal ==> client.Some? && user.Some?
  }

  /** The effective extra-data table. */
  function ExtraData(isStaff: bool, isInternal: bool, department: Entry, client: Option<Entry>, user: Option<Entry>)
    : (r: map<string, string>)
    requires ExtraDataDefined(isStaff, isInternal, client, user)
    ensures r.Keys <= {DepartmentIdKey, ClientIdKey, ClientUserIdKey, StaffClientIdKey}
    ensures DepartmentIdKey in r <==> !isStaff || isInternal || IsFranchise(department.id)
    ensures DepartmentIdKey in r ==> r[DepartmentIdKey] == department.id
    ensures ClientIdKey in r <==> isStaff && isInternal && !IsFranchise(department.id)
    ensures ClientIdKey in r ==> r[ClientIdKey] == client.value.id
    ensures ClientUserIdKey in r <==> ClientIdKey in r
    ensures ClientUserIdKey in r ==> r[ClientUserIdKey] == user.value.id
    ensures StaffClientIdKey in r <==> isStaff && isInternal && IsFranchise(department.id)
    ensures StaffClientIdKey in r ==> r[StaffClientIdKey] == user.value.id
  {
    if !isStaff then map[DepartmentIdKey := department.id]
    else if isInternal && !IsFranchise(department.id) then
      map[DepartmentIdKey := department.id, ClientIdKey := client.value.id, ClientUserIdKey := user.value.id]
    else if isInternal then
      map[DepartmentIdKey := department.id, StaffClientIdKey := user.value.id]
    else if IsFranchise(department.id) then map[DepartmentIdKey := department.id]
    else map[]
  }

  /** An actor who is not staff sends only the department id, whatever the
      client and client-user lists hold (they are not even read). */
  lemma NonStaffSendsDepartmentOnly(isInternal: bool, department: Entry, client: Option<Entry>, user: Option<Entry>)
    ensures ExtraData(false, isInternal, department, client, user) == map[DepartmentIdKey := department.id]
  {
  }

  /** Internal staff under the franchise department send the selected client user
      as `staffClientId`, never as `clientUserId`, and no client id. */
  lemma InternalFranchiseSendsStaffClient(department: Entry, client: Entry, user: Entry)
    requires IsFranchise(department.id)
    ensures ExtraData(true, true, department, Some(client), Some(user))
      == map[DepartmentIdKey := department.id, StaffClientIdKey := user.id]
  {
  }

  /** A ticket never names both a client and a franchise staff member. */
  lemma ClientAndStaffClientExclusive(
    isStaff: bool, isInternal: bool, department: Entry, client: Option<Entry>, user: Option<Entry>)
    requires ExtraDataDefined(isStaff, isInternal, client, user)
    ensures var r := ExtraData(isStaff, isInternal, department, client, user);
      !(ClientIdKey in r && StaffClientIdKey in r)
  {
  }

  /** Customer staff under an ordinary department send no extra field at all. */
  lemma CustomerStaffOrdinaryDepartmentSendsNothing(department: Entry, client: Option<Entry>, user: Option<Entry>)
    requires !IsFranchise(department.id)
    ensures ExtraData(true, false, department, client, user) == map[]
  {
  }
}
