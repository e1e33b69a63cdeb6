# AWX Terraform provider: role resolution, selector lookups and the schedule resource

This project models the part of the AWX/Ansible Tower Terraform provider that holds
selection and mapping logic between the provider's calls to the goawx REST client:

- **Role-slot resolution.** Two data sources resolve a role of a parent object:
  `awx_organization_role` and the job-template role data source. The parent's roles
  sit in a fixed, ordered list of slots, and any slot may be nil. The handler takes
  the first non-nil slot whose id or name equals the selector. The organization scans
  by id and then by name. The job template scans by name and then by id.
- **Selector-based single-result lookup.** This covers the team data sources (two
  versions), the project, schedule and inventory-group data sources. Each builds a
  filter map from the optional `name` and `id` selectors, with the id in decimal. It
  lists the matching objects, rejects more than one result with the count, and takes
  element 0. Only the team data source of the internal package refuses an empty filter
  and reports an empty answer. The others index element 0 without checking, which
  panics on an empty answer.
- **The `awx_schedule` resource.** Create and Update send the same six-field body
  built from state. Read projects the schedule record back onto state. The handlers
  set the tracked id on create and read, and clear it on a successful delete.

Calls into the goawx client are not computed. Each handler takes their answers as
inputs (`Remote<T>`: `Ok(value)` or `Err(message)`), so every remote behaviour is
covered. Each handler also returns `calls`, the requests it issued in order. This
makes "no list call is made" and "the list is scoped to the inventory" statable.
Terraform's `schema.ResourceData` is the class `Schema.ResourceData`: a tracked `id`,
a flat attribute map and the set of attribute names the block's schema declares.
`Set` and `SetId` update it in place, and a `Set` on an undeclared name writes
nothing. `GetOk` reports the zero values `""` and `0` as unset, as the SDK does. Go's `int` is the 64-bit subset
type `Decimal.GoInt`. `strconv.Itoa` and `strconv.Atoi` are written out in `Decimal`.

Modules: `Wrappers`, `Decimal`, `Schema`, `Api` (records, calls, diagnostics and
statuses), `Roles`, `Selector`, and one module per handler file:
`OrganizationRoleDataSource`, `JobTemplateRoleDataSource`, `InternalTeamDataSource`,
`TeamDataSource`, `ProjectDataSource`, `ScheduleDataSource`,
`InventoryGroupDataSource` and `ScheduleResource`.

Two details of the code that the model keeps:

- The two role data sources scan in opposite orders. The organization role scans by
  id first and then by name (awx/data_source_organization_role.go:93-112). The
  job-template role scans by name first and then by id
  (awx/data_source_template_role.go:71-90).
- The schedule resource's Delete calls `Delete` directly, without fetching the
  schedule first. It clears the tracked id only when that call succeeds
  (awx/resource_schedule.go:158-165).

## Model

| member | source | states |
|---|---|---|
| `Decimal.NatDigitsSpec` | awx/data_source_organization_role.go:122 | The decimal digits `strconv.Itoa` writes are non-empty, all digits, and spell exactly the value. |
| `Decimal.AtoiItoa` | awx/resource_schedule.go:93-94 | For every Go `int`, parsing the text `Itoa` wrote gives the same id back. So the Read that follows Create requests the id Create was given. |
| `Decimal.ItoaInjective` | awx/resource_schedule.go:175 | Two different ids never get the same tracked id text. |
| `Decimal.ItoaNonEmpty` | awx/resource_schedule.go:175 | A tracked id set from a number is never `""`, the value Delete uses for "gone". |
| `Roles.FirstMatch` | awx/data_source_organization_role.go:95-100 | The result is the index of a non-nil slot matching the key, and no earlier slot matches. The result is absent exactly when no slot matches. |
| `Roles.Scan` | awx/data_source_template_role.go:74-79 | The early-return loop over the slots returns exactly the first matching slot. |
| `Roles.Resolve` | awx/data_source_organization_role.go:93-117 | Running the scans in order gives a role that sits in a non-nil slot and matches one of the keys. The result is not-found exactly when no slot matches any key. When the scans before key `j` find nothing and the scan for key `j` finds a slot, that scan's first match is the result. |
| `Roles.SetRoleData` | awx/data_source_organization_role.go:120-124 | State `name` becomes the role's name and the tracked id becomes its id in decimal. Nothing else changes. The same holds for awx/data_source_template_role.go:98-102. |
| `OrganizationRoleDataSource.RoleSlots` | awx/data_source_organization_role.go:75-91 | The organization offers fifteen role slots. |
| `OrganizationRoleDataSource.Read` | awx/data_source_organization_role.go:51-118 | With `organization_id` 0, no fetch is made. Otherwise exactly one fetch of that organization is made. The status is the lookup's. State is written, with the role's name and decimal id, only when a role is found. |
| `OrganizationRoleDataSource.MissingOrganizationId` | awx/data_source_organization_role.go:56-64 | An `organization_id` of 0 is "Missing Parameters", whatever the selectors or the fetch answer. |
| `OrganizationRoleDataSource.IdTakesPrecedence` | awx/data_source_organization_role.go:93-112 | When some slot carries the id, the first such slot is the result, whatever the name selector says. |
| `OrganizationRoleDataSource.NameAfterFailedIdScan` | awx/data_source_organization_role.go:103-112 | When no slot carries the id, or no id is set, the first slot carrying the name is the result. |
| `OrganizationRoleDataSource.FoundMatchesSelector` | awx/data_source_organization_role.go:93-112 | A found role comes from a non-nil slot of the fetched organization. Its id equals the id selector or its name equals the name selector. |
| `OrganizationRoleDataSource.NotFoundWhenNothingMatches` | awx/data_source_organization_role.go:93-117 | The result is not-found exactly when the fetch succeeded and no non-nil slot matches the id or the name. |
| `JobTemplateRoleDataSource.RoleSlots` | awx/data_source_template_role.go:65-69 | The job template offers three role slots: Admin, Read and Execute. |
| `JobTemplateRoleDataSource.Read` | awx/data_source_template_role.go:50-96 | Exactly one fetch of `job_template_id` is made; there is no zero check. The status is the lookup's. State is written only when a role is found. |
| `JobTemplateRoleDataSource.FetchFailureFirst` | awx/data_source_template_role.go:55-63 | A failed job-template fetch is reported as that error before any slot is scanned. |
| `JobTemplateRoleDataSource.NameTakesPrecedence` | awx/data_source_template_role.go:71-90 | When some slot carries the name, the first such slot is the result, whatever the id selector says. |
| `JobTemplateRoleDataSource.IdAfterFailedNameScan` | awx/data_source_template_role.go:82-91 | When no slot carries the name, or no name is set, the first slot carrying the id is the result. |
| `JobTemplateRoleDataSource.FoundMatchesSelector` | awx/data_source_template_role.go:71-90 | A found role is the template's Admin, Read or Execute role. Its name equals the name selector or its id equals the id selector. |
| `JobTemplateRoleDataSource.NotFoundWhenNothingMatches` | awx/data_source_template_role.go:71-95 | The result is not-found exactly when the fetch succeeded and no non-nil slot matches the name or the id. |
| `JobTemplateRoleDataSource.SelectorOrderDiffers` | awx/data_source_template_role.go:71-90 | Take the same Admin and Read roles, with the Read role's id and the Admin role's name as selectors. The organization resolves to Read and the job template to Admin. |
| `Selector.SelectorFilter` | internal/awx/data_source_team.go:36-43 | The filter has key `name` exactly when a name is set and key `id`, in decimal, exactly when an id is set. It has no other key. |
| `Selector.FilterRoundTrip` | internal/awx/data_source_team.go:41-43 | Reading the filter back, with the id parsed from decimal, gives exactly the selectors it was built from. |
| `Selector.FilterEmptyIff` | internal/awx/data_source_team.go:45-50 | The filter is empty exactly when neither selector is set. |
| `Selector.PickSingle` | internal/awx/data_source_team.go:51-76 | One object is selected exactly when the list call succeeded with one result, and that result is the object. A failed list call is an error. Two or more results are an error carrying the count. Zero results are "does not exist" when guarded and an index-out-of-range panic when not. |
| `Selector.PoliciesAgreeUnlessEmpty` | awx/data_source_team.go:68-76 | The guarded and unguarded count checks give different outcomes exactly on an empty answer. |
| `InternalTeamDataSource.Read` | internal/awx/data_source_team.go:33-88 | With no selector set, no call is made and the result is "Missing Parameters". Otherwise one list call is made with the selector filter, and the count checks decide the status. With exactly one team, its entitlements are listed by that team's id. That team and its entitlements are projected only when this call succeeds. This handler never panics. |
| `TeamDataSource.Read` | awx/data_source_team.go:48-88 | The list call is always made with the selector filter, even an empty one. The unguarded count checks decide the status, and zero teams panic. With exactly one team, its entitlements are listed by that team's id, and the team is projected only when this call succeeds. |
| `ProjectDataSource.Read` | awx/data_source_project.go:44-75 | One list call is made with the selector filter. The unguarded count checks decide the status, and zero projects panic. Exactly one project is projected. |
| `ScheduleDataSource.ProjectionWritesOnlyName` | awx/data_source_schedule.go:33-44 | The data source declares only `id` and `name`. So the resource's setter, applied to its state, changes the `name` attribute and nothing else. |
| `ScheduleDataSource.Read` | awx/data_source_schedule.go:48-79 | One list call is made with the selector filter. The unguarded count checks decide the status. Exactly one schedule is projected by the resource's own setter: only `name` changes among the attributes, and the tracked id parses back to that schedule's id. Otherwise state is unchanged. |
| `InventoryGroupDataSource.Read` | awx/data_source_inventory_group.go:51-96 | With `inventory_id` 0, no call is made and the result is "Missing Parameters". Otherwise one list call is made, scoped to that inventory, with the selector filter. The unguarded count checks decide the status, and exactly one group is projected. |
| `ScheduleResource.Payload` | awx/resource_schedule.go:75-82 | The request body has exactly the six keys `name`, `rrule`, `unified_job_template`, `description`, `enabled` and `inventory`. |
| `ScheduleResource.Projection` | awx/resource_schedule.go:168-177 | After the projection, reading each declared schedule attribute gives the record's field. Every other attribute is kept, including a schedule attribute the schema does not declare. |
| `ScheduleResource.SetScheduleResourceData` | awx/resource_schedule.go:168-177 | The six `Set` calls, each a no-op on an undeclared name, leave exactly the projection of the record onto the block's declared attributes. The tracked id becomes the record's id in decimal. |
| `ScheduleResource.PayloadOfProjection` | awx/resource_schedule.go:112-119 | The round trip: the body rebuilt from projected state equals the record's six fields, whatever state held before. |
| `ScheduleResource.CreateThenReadKeepsState` | awx/resource_schedule.go:75-94 | Suppose the remote system stores what Create sent. Then reading it back leaves every schedule attribute with the value it had. |
| `ScheduleResource.PayloadIsFullReplacement` | awx/resource_schedule.go:112-119 | An attribute outside the schema never reaches the body. Changing `description` alone changes only the body's `description`. |
| `ScheduleResource.ProjectionIdempotent` | awx/resource_schedule.go:132-148 | Reading twice with the same answer gives the same state as reading once, whatever the schema declares. |
| `ScheduleResource.Read` | awx/resource_schedule.go:132-148 | An unparsable tracked id is an error with no call. Otherwise one by-id fetch is made. A failed fetch is not-found and leaves state unchanged. A successful fetch projects the record, and the tracked id parses back to its id. |
| `ScheduleResource.Create` | awx/resource_schedule.go:70-95 | The body is built from state. A failed Create is an error, and no id is set. After success, the id is the created id in decimal, and the following Read fetches exactly that id. |
| `ScheduleResource.Update` | awx/resource_schedule.go:97-130 | The existence check comes first. If it fails, the result is not-found and the Update call is not made. Otherwise the Update call sends the body built from state to the same id. A failed Update leaves state unchanged. After success, the same id is read back. |
| `ScheduleResource.Delete` | awx/resource_schedule.go:150-166 | One delete of the parsed id is made. The id is cleared only when the call succeeds. On failure, the result is an error and the id is unchanged. Attributes are never touched. |
| `ScheduleResource.Lifecycle` | awx/resource_schedule.go:70-166 | Absent, then present, then absent: after a successful Create and read-back, the tracked id parses to the schedule's id. A successful Delete of that id then clears it. |

## Left out

- Calls into the goawx client (`GetOrganizationsByID`, `GetJobTemplateByID`, `ListTeams`, `ListTeamRoleEntitlements`, `ListProjects`, the schedule service's `List`, `ListInventoryGroups`, `Create`, `GetByID`, `Update`, `Delete`). They are HTTP calls into a library outside this repository. Their answers are handler inputs, and the requests are recorded in `calls`.
- `convertStateIDToNummeric` is not part of this model. Its parse of the tracked id is modelled as `Decimal.Atoi` (the forms `strconv.Atoi` accepts, within 64-bit range). Its diagnostic is modelled as `InvalidStateId`.
- `buildDiagnosticsMessage`, `buildDiagNotFoundFail` and `buildDiagDeleteFail` are not part of this model. Diagnostics are modelled by kind (`Api.Diag`), and message text and severity are left out.
- TeamDataSource.Read: does not write `d`, because `setTeamResourceData` is not part of this model; it returns the team and entitlements it would project.
- InternalTeamDataSource.Read: does not write `d`, because `setTeamResourceData` is not part of this model; it returns the team and entitlements it would project.
- ProjectDataSource.Read: does not write `d`, because `setProjectResourceData` is not part of this model; it returns the project it would project.
- InventoryGroupDataSource.Read: does not write `d`, because `setInventoryGroupResourceData` is not part of this model; it returns the group it would project.
- Schema declarations are framework behaviour and are not modelled. This covers Required, Optional, Computed, Default (for example `enabled` defaulting to true) and ForceNew, as well as the plan/apply lifecycle. State values are whatever the attribute map holds.
- The SDK's own failure modes are not modelled beyond this: a `d.Set` on an undeclared key writes nothing, and its error is ignored as the handlers ignore it. A Go type assertion on a value of the wrong type is not modelled. A getter returns its type's zero value when the attribute is missing or holds another type.
- The `log.Printf` in Create, the `context` argument and the client handle taken from the provider meta value are not modelled.
- The `return diags` after the many-results return in awx/data_source_inventory_group.go:90 can never run, so it has no counterpart.
- awx/resource_workflow_job_template_schedule.go is not modelled. Beyond copying fields, it only transforms through `AtoipOr` and YAML helpers that are not part of this model. Its other steps repeat the schedule resource.
- awx/resource_organization_instance_groups.go is not modelled. It only orders associate and disassociate calls of another client library, and its Read does nothing.
- awx/data_source_credential_azure_key_vault.go and awx/data_source_organization.go are not modelled. Each sets its id from the current time and otherwise copies fields.
- awx/resource_workflow_job_template_node_success.go and awx/resource_workflow_job_template_notification_template_error.go are not modelled. They are registrations that delegate to helpers that are not part of this model.
