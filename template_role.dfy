/**
 * The job-template role data source: resolve one role of a job template by its name
 * or its id. Unlike the organization role, the name scan runs before the id scan.
 */
module JobTemplateRoleDataSource {
  import opened Wrappers
  import opened Decimal
  import opened Schema
  import opened Api
  import opened Roles
  import OrganizationRoleDataSource

  /** The attributes the data source's schema declares. */
  const Declared: set<string> := {"id", "name", "job_template_id"}

  /** `roleslist`: Admin, Read, Execute, in that order. */
  function RoleSlots(r: JobTemplateObjectRoles): (s: Slots)
    ensures |s| == 3
  {
    [r.adminRole, r.readRole, r.executeRole]
  }

  /**
   * The outcome of the data source for `job_template_id` (no zero check here), the
   * `GetOk` views of `name` and `id`, and the answer to the job template fetch.
   */
  function Lookup(id: Option<GoInt>, name: Option<string>, fetched: Remote<JobTemplate>): RoleLookup {
    match fetched
    case Err(m) => ParentFetchFailed(m)
    case Ok(t) => Resolve(RoleSlots(t.roles), NameKeys(name) + IdKeys(id))
  }

  /**
   * `dataSourceJobTemplateRoleRead`. `fetched` is the answer the client gives to
   * `GetJobTemplateByID`; `calls` lists the requests made.
   */
  method Read(d: ResourceData, fetched: Remote<JobTemplate>) returns (status: Status, calls: seq<Call>)
    requires d.declared == Declared
    modifies d
    ensures calls == [GetJobTemplateByID(GetInt(old(d.attrs), "job_template_id"))]
    ensures var r := Lookup(GetOkInt(old(d.attrs), "id"), GetOkString(old(d.attrs), "name"), fetched);
            && status == LookupStatus(r)
            && (r.Found? ==> d.attrs == old(d.attrs)["name" := Str(r.role.name)] && d.id == Itoa(r.role.id))
            && (!r.Found? ==> d.attrs == old(d.attrs) && d.id == old(d.id))
  {
    var templateId := GetInt(d.attrs, "job_template_id");
    calls := [GetJobTemplateByID(templateId)];
    if fetched.Err? {
      return Failure(FetchFailed(fetched.message)), calls;
    }
    var slots := RoleSlots(fetched.value.roles);
    var name := GetOkString(d.attrs, "name");
    var id := GetOkInt(d.attrs, "id");
    ghost var keys := NameKeys(name) + IdKeys(id);
    if name.Some? {
      var found := Scan(slots, ByName(name.value));
      if found.Some? {
        SetRoleData(d, slots[found.value].value);
        return Success, calls;
      }
      assert keys[1..] == IdKeys(id);
    } else {
      assert keys == IdKeys(id);
    }
    if id.Some? {
      var found := Scan(slots, ById(id.value));
      if found.Some? {
        SetRoleData(d, slots[found.value].value);
        return Success, calls;
      }
    }
    status := Failure(ResourceNotFound);
  }

  /** A failed job template fetch is reported before any slot is looked at. */
  lemma FetchFailureFirst(id: Option<GoInt>, name: Option<string>, message: string)
    ensures Lookup(id, name, Err(message)) == ParentFetchFailed(message)
  {
  }

  /** When some slot carries the requested name, the first such slot wins, whatever `id` says. */
  lemma NameTakesPrecedence(id: Option<GoInt>, name: string, t: JobTemplate)
    requires FirstMatch(RoleSlots(t.roles), ByName(name)).Some?
    ensures Lookup(id, Some(name), Ok(t)) ==
            Found(RoleSlots(t.roles)[FirstMatch(RoleSlots(t.roles), ByName(name)).value].value)
  {
  }

  /**
   * When no slot carries the name, the id scan decides: its first match is the
   * result.
   */
  lemma IdAfterFailedNameScan(id: GoInt, name: Option<string>, t: JobTemplate)
    requires name.None? || FirstMatch(RoleSlots(t.roles), ByName(name.value)).None?
    requires FirstMatch(RoleSlots(t.roles), ById(id)).Some?
    ensures Lookup(Some(id), name, Ok(t)) ==
            Found(RoleSlots(t.roles)[FirstMatch(RoleSlots(t.roles), ById(id)).value].value)
  {
    var keys := NameKeys(name) + IdKeys(Some(id));
    var j := |keys| - 1;
    assert keys[j] == ById(id);
    assert ScansMiss(RoleSlots(t.roles), keys, j);
  }

  /**
   * A found role is one of the Admin, Read and Execute roles of the fetched job
   * template, and agrees with the name selector or with the id selector.
   */
  lemma FoundMatchesSelector(id: Option<GoInt>, name: Option<string>, fetched: Remote<JobTemplate>)
    requires Lookup(id, name, fetched).Found?
    ensures fetched.Ok?
    ensures var role := Lookup(id, name, fetched).role;
            var roles := fetched.value.roles;
            && (roles.adminRole == Some(role) || roles.readRole == Some(role) || roles.executeRole == Some(role))
            && (name == Some(role.name) || id == Some(role.id))
  {
    var slots := RoleSlots(fetched.value.roles);
    var keys := NameKeys(name) + IdKeys(id);
    var role := Lookup(id, name, fetched).role;
    var j, i :| 0 <= j < |keys| && 0 <= i < |slots| && slots[i] == Some(role) && Matches(slots[i], keys[j]);
    if name.Some? && j == 0 {
      assert keys[0] == ByName(name.value);
    } else {
      assert keys[j] == ById(id.value);
    }
  }

  /** Not found exactly when the fetch succeeded and no non-nil slot matches either selector. */
  lemma NotFoundWhenNothingMatches(id: Option<GoInt>, name: Option<string>, fetched: Remote<JobTemplate>)
    ensures Lookup(id, name, fetched) == NotFound <==>
            && fetched.Ok?
            && (forall i :: 0 <= i < 3 ==>
                  && !(name.Some? && Matches(RoleSlots(fetched.value.roles)[i], ByName(name.value)))
                  && !(id.Some? && Matches(RoleSlots(fetched.value.roles)[i], ById(id.value))))
  {
    if fetched.Ok? {
      var keys := NameKeys(name) + IdKeys(id);
      forall j | 0 <= j < |keys|
        ensures (name.Some? && keys[j] == ByName(name.value)) || (id.Some? && keys[j] == ById(id.value))
      {
      }
      if name.Some? { assert keys[0] == ByName(name.value); }
      if id.Some? { assert keys[|keys| - 1] == ById(id.value); }
    }
  }

  /**
   * The two role data sources disagree when the selectors point at different roles:
   * with the same Admin and Read roles in an organization and in a job template,
   * `id` set to the Read role's id and `name` to the Admin role's name resolve to
   * Read for the organization and to Admin for the job template.
   */
  lemma SelectorOrderDiffers(orgId: GoInt, admin: ApplyRole, read: ApplyRole, org: Organization, template: JobTemplate)
    requires orgId != 0 && admin.id != read.id
    requires org.roles == OrganizationObjectRoles(
               None, Some(admin), None, None, None, None, None, None, None, None, None, Some(read), None, None, None)
    requires template.roles == JobTemplateObjectRoles(Some(admin), Some(read), None)
    ensures OrganizationRoleDataSource.Lookup(orgId, Some(read.id), Some(admin.name), Ok(org)) == Found(read)
    ensures Lookup(Some(read.id), Some(admin.name), Ok(template)) == Found(admin)
  {
    var orgSlots := OrganizationRoleDataSource.RoleSlots(org.roles);
    assert Matches(orgSlots[11], ById(read.id));
    assert forall k :: 0 <= k < 15 && k != 11 ==> !Matches(orgSlots[k], ById(read.id));
    assert Matches(RoleSlots(template.roles)[0], ByName(admin.name));
  }
}
