/**
 * The records the goawx client returns, the calls the handlers make on it, and the
 * diagnostics the handlers hand back to Terraform.
 */
module Api {
  import opened Wrappers
  import opened Decimal
  import opened Schema

  /** `awx.ApplyRole`: one role grant found in a parent object's summary fields. */
  datatype ApplyRole = ApplyRole(id: GoInt, name: string)

  /** `SummaryFields.ObjectRoles` of an organization: fifteen role pointers, any of them nil. */
  datatype OrganizationObjectRoles = OrganizationObjectRoles(
    adhocRole: Option<ApplyRole>,
    adminRole: Option<ApplyRole>,
    approvalRole: Option<ApplyRole>,
    auditorRole: Option<ApplyRole>,
    credentialAdminRole: Option<ApplyRole>,
    executeRole: Option<ApplyRole>,
    inventoryAdminRole: Option<ApplyRole>,
    jobTemplateAdminRole: Option<ApplyRole>,
    memberRole: Option<ApplyRole>,
    notificationAdminRole: Option<ApplyRole>,
    projectAdminRole: Option<ApplyRole>,
    readRole: Option<ApplyRole>,
    updateRole: Option<ApplyRole>,
    useRole: Option<ApplyRole>,
    workflowAdminRole: Option<ApplyRole>)

  datatype Organization = Organization(id: GoInt, name: string, roles: OrganizationObjectRoles)

  /** `SummaryFields.ObjectRoles` of a job template: three role pointers, any of them nil. */
  datatype JobTemplateObjectRoles = JobTemplateObjectRoles(
    adminRole: Option<ApplyRole>,
    readRole: Option<ApplyRole>,
    executeRole: Option<ApplyRole>)

  datatype JobTemplate = JobTemplate(id: GoInt, name: string, roles: JobTemplateObjectRoles)

  datatype Team = Team(id: GoInt, name: string)

  datatype RoleEntitlement = RoleEntitlement(id: GoInt, name: string)

  datatype Project = Project(id: GoInt, name: string)

  datatype InventoryGroup = InventoryGroup(id: GoInt, name: string, inventory: GoInt)

  /** `awx.Schedule`, restricted to the fields the schedule resource reads and writes. */
  datatype Schedule = Schedule(
    id: GoInt,
    name: string,
    rrule: string,
    unifiedJobTemplate: GoInt,
    description: string,
    enabled: bool,
    inventory: GoInt)

  /** One request issued to the remote system, in the order the handler issued it. */
  datatype Call =
    | GetOrganizationByID(organizationId: GoInt)
    | GetJobTemplateByID(jobTemplateId: GoInt)
    | ListTeams(params: map<string, string>)
    | ListTeamRoleEntitlements(teamId: GoInt)
    | ListProjects(params: map<string, string>)
    | ListSchedules(params: map<string, string>)
    | ListInventoryGroups(inventoryId: GoInt, params: map<string, string>)
    | CreateSchedule(payload: map<string, Value>)
    | GetScheduleByID(scheduleId: GoInt)
    | UpdateSchedule(scheduleId: GoInt, payload: map<string, Value>)
    | DeleteSchedule(scheduleId: GoInt)

  /** The kinds of error diagnostic the handlers return (their message text is not modelled). */
  datatype Diag =
    | MissingParameters
    | FetchFailed(message: string)
    | MoreThanOne(count: nat)
    | DoesNotExist
    | ResourceNotFound
    | InvalidStateId
    | CreateFailed(message: string)
    | UpdateFailed(message: string)
    | DeleteFailed(message: string)

  /**
   * How a handler ends: no error diagnostic, one error diagnostic, or a Go runtime
   * panic from indexing element 0 of an empty slice.
   */
  datatype Status = Success | Failure(diag: Diag) | IndexOutOfRange
}
