/**
 * The `awx_organization_role` data source: resolve one role of an organization by
 * its id or its name. The id scan runs before the name scan.
 */
module OrganizationRoleDataSource {
  import opened Wrappers
  import opened Decimal
  import opened Schema
  import opened Api
  import opened Roles

  /** The attributes the data source's schema declares. */
  const Declared: set<string> := {"organization_id", "id", "name"}

  /** `roleslist`: the organization's fifteen role slots in their fixed order. */
  function RoleSlots(r: OrganizationObjectRoles): (s: Slots)
    ensures |s| == 15
  {
    [r.adhocRole, r.adminRole, r.approvalRole, r.auditorRole, r.credentialAdminRole,
     r.executeRole, r.inventoryAdminRole, r.jobTemplateAdminRole, r.memberRole,
     r.notificationAdminRole, r.projectAdminRole, r.readRole, r.updateRole,
     r.useRole, r.workflowAdminRole]
  }

  /**
   * The outcome of the data source for `organization_id`, the `GetOk` views of the
   * `id` and `name` selectors, and the answer to the organization fetch.
   */
  function Lookup(orgId: GoInt, id: Option<GoInt>, name: Option<string>, fetched: Remote<Organization>): RoleLookup {
    if orgId == 0 then MissingParam
    else match fetched
      case Err(m) => ParentFetchFailed(m)
      case Ok(o) => Resolve(RoleSlots(o.roles), IdKeys(id) + NameKeys(name))
  }

  /**
   * `dataSourceOrganizationRolesRead`. `fetched` is the answer the client gives to
   * `GetOrganizationsByID`; `calls` lists the requests made.
   */
  method Read(d: ResourceData, fetched: Remote<Organization>) returns (status: Status, calls: seq<Call>)
    requires d.declared == Declared
    modifies d
    ensures var orgId := GetInt(old(d.attrs), "organization_id");
            calls == if orgId == 0 then [] else [GetOrganizationByID(orgId)]
    ensures var r := Lookup(GetInt(old(d.attrs), "organization_id"), GetOkInt(old(d.attrs), "id"),
                            GetOkString(old(d.attrs), "name"), fetched);
            && status == LookupStatus(r)
            && (r.Found? ==> d.attrs == old(d.attrs)["name" := Str(r.role.name)] && d.id == Itoa(r.role.id))
            && (!r.Found? ==> d.attrs == old(d.attrs) && d.id == old(d.id))
  {
    var orgId := GetInt(d.attrs, "organization_id");
    if orgId == 0 {
      return Failure(MissingParameters), [];
    }
    calls := [GetOrganizationByID(orgId)];
    if fetched.Err? {
      return Failure(FetchFailed(fetched.message)), calls;
    }
    var slots := RoleSlots(fetched.value.roles);
    var id := GetOkInt(d.attrs, "id");
    var name := GetOkString(d.attrs, "name");
    ghost var keys := IdKeys(id) + NameKeys(name);
    if id.Some? {
      var found := Scan(slots, ById(id.value));
      if found.Some? {
        SetRoleData(d, slots[found.value].value);
        return Success, calls;
      }
      assert keys[1..] == NameKeys(name);
    } else {
      assert keys == NameKeys(name);
    }
    if name.Some? {
      var found := Scan(slots, ByName(name.value));
      if found.Some? {
        SetRoleData(d, slots[found.value].value);
        return Success, calls;
      }
    }
    status := Failure(ResourceNotFound);
  }

  /** An `organization_id` of 0 is reported as missing whatever else is set or fetched. */
  lemma MissingOrganizationId(id: Option<GoInt>, name: Option<string>, fetched: Remote<Organization>)
    ensures Lookup(0, id, name, fetched) == MissingParam
  {
  }

  /** When some slot carries the requested id, the first such slot wins, whatever `name` says. */
  lemma IdTakesPrecedence(orgId: GoInt, id: GoInt, name: Option<string>, o: Organization)
    requires orgId != 0
    requires FirstMatch(RoleSlots(o.roles), ById(id)).Some?
    ensures Lookup(orgId, Some(id), name, Ok(o)) ==
            Found(RoleSlots(o.roles)[FirstMatch(RoleSlots(o.roles), ById(id)).value].value)
  {
  }

  /**
   * When no slot carries the id (or no id is set), the name scan decides: its first
   * match is the result.
   */
  lemma NameAfterFailedIdScan(orgId: GoInt, id: Option<GoInt>, name: string, o: Organization)
    requires orgId != 0
    requires id.None? || FirstMatch(RoleSlots(o.roles), ById(id.value)).None?
    requires FirstMatch(RoleSlots(o.roles), ByName(name)).Some?
    ensures Lookup(orgId, id, Some(name), Ok(o)) ==
            Found(RoleSlots(o.roles)[FirstMatch(RoleSlots(o.roles), ByName(name)).value].value)
  {
    var keys := IdKeys(id) + NameKeys(Some(name));
    var j := |keys| - 1;
    assert keys[j] == ByName(name);
    assert ScansMiss(RoleSlots(o.roles), keys, j);
  }

  /**
   * A found role sits in a non-nil slot of the fetched organization and agrees with
   * the id selector or with the name selector.
   */
  lemma FoundMatchesSelector(orgId: GoInt, id: Option<GoInt>, name: Option<string>, fetched: Remote<Organization>)
    requires Lookup(orgId, id, name, fetched).Found?
    ensures fetched.Ok?
    ensures var role := Lookup(orgId, id, name, fetched).role;
            && (exists i :: 0 <= i < 15 && RoleSlots(fetched.value.roles)[i] == Some(role))
            && (id == Some(role.id) || name == Some(role.name))
  {
    var slots := RoleSlots(fetched.value.roles);
    var keys := IdKeys(id) + NameKeys(name);
    var role := Lookup(orgId, id, name, fetched).role;
    var j, i :| 0 <= j < |keys| && 0 <= i < |slots| && slots[i] == Some(role) && Matches(slots[i], keys[j]);
    if id.Some? && j == 0 {
      assert keys[0] == ById(id.value);
    } else {
      assert keys[j] == ByName(name.value);
    }
  }

  /** Not found exactly when the fetch succeeded and no non-nil slot matches either selector. */
  lemma NotFoundWhenNothingMatches(orgId: GoInt, id: Option<GoInt>, name: Option<string>, fetched: Remote<Organization>)
    ensures Lookup(orgId, id, name, fetched) == NotFound <==>
            && orgId != 0 && fetched.Ok?
            && (forall i :: 0 <= i < 15 ==>
                  && !(id.Some? && Matches(RoleSlots(fetched.value.roles)[i], ById(id.value)))
                  && !(name.Some? && Matches(RoleSlots(fetched.value.roles)[i], ByName(name.value))))
  {
    if orgId != 0 && fetched.Ok? {
      var slots := RoleSlots(fetched.value.roles);
      var keys := IdKeys(id) + NameKeys(name);
      forall j | 0 <= j < |keys|
        ensures (id.Some? && keys[j] == ById(id.value)) || (name.Some? && keys[j] == ByName(name.value))
      {
      }
      if id.Some? { assert keys[0] == ById(id.value); }
      if name.Some? { assert keys[|keys| - 1] == ByName(name.value); }
    }
  }
}
