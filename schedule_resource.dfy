/**
 * The `awx_schedule` resource: the six-field request body built from state, the
 * projection of a schedule record back onto state, and the Create, Read, Update and
 * Delete handlers with their rules for setting and clearing the tracked id.
 */
module ScheduleResource {
  import opened Wrappers
  import opened Decimal
  import opened Schema
  import opened Api

  /** The state attributes the resource declares. */
  const StateKeys: set<string> :=
    {"name", "rrule", "unified_job_template_id", "description", "enabled", "inventory"}

  /** The keys of the request body Create and Update send. */
  const PayloadKeys: set<string> :=
    {"name", "rrule", "unified_job_template", "description", "enabled", "inventory"}

  /**
   * The request body Create and Update build from state: `unified_job_template` is
   * taken from `unified_job_template_id`, the other five attributes keep their names.
   */
  function Payload(a: Attrs): (p: map<string, Value>)
    ensures p.Keys == PayloadKeys
  {
    map[
      "name" := Str(GetString(a, "name")),
      "rrule" := Str(GetString(a, "rrule")),
      "unified_job_template" := Int(GetInt(a, "unified_job_template_id")),
      "description" := Str(GetString(a, "description")),
      "enabled" := Bool(GetBool(a, "enabled")),
      "inventory" := Int(GetInt(a, "inventory"))]
  }

  /** The request body that describes the schedule record `s` field for field. */
  function RecordFields(s: Schedule): map<string, Value> {
    map[
      "name" := Str(s.name),
      "rrule" := Str(s.rrule),
      "unified_job_template" := Int(s.unifiedJobTemplate),
      "description" := Str(s.description),
      "enabled" := Bool(s.enabled),
      "inventory" := Int(s.inventory)]
  }

  /** The six schedule attributes as `setScheduleResourceData` sets them from the record `s`. */
  function StateFields(s: Schedule): (f: Attrs)
    ensures f.Keys == StateKeys
  {
    map[
      "name" := Str(s.name),
      "rrule" := Str(s.rrule),
      "unified_job_template_id" := Int(s.unifiedJobTemplate),
      "description" := Str(s.description),
      "enabled" := Bool(s.enabled),
      "inventory" := Int(s.inventory)]
  }

  /**
   * The attributes after `setScheduleResourceData(d, s)` on a block whose schema
   * declares `declared`: each declared schedule attribute reads back the record's
   * field, and every other attribute is kept (a `Set` on an undeclared key writes
   * nothing).
   */
  function Projection(a: Attrs, declared: set<string>, s: Schedule): (p: Attrs)
    ensures p.Keys == a.Keys + (StateKeys * declared)
    ensures "name" in declared ==> GetString(p, "name") == s.name
    ensures "rrule" in declared ==> GetString(p, "rrule") == s.rrule
    ensures "unified_job_template_id" in declared ==> GetInt(p, "unified_job_template_id") == s.unifiedJobTemplate
    ensures "description" in declared ==> GetString(p, "description") == s.description
    ensures "enabled" in declared ==> GetBool(p, "enabled") == s.enabled
    ensures "inventory" in declared ==> GetInt(p, "inventory") == s.inventory
    ensures forall k :: k in a && (k !in StateKeys || k !in declared) ==> p[k] == a[k]
  {
    a + Restrict(StateFields(s), declared)
  }

  /** The entries of `f` whose keys are in `keys`. */
  function Restrict(f: Attrs, keys: set<string>): Attrs {
    map k | k in f.Keys * keys :: f[k]
  }

  /** One more `Set` of a field of `f` extends the set of fields already written by its key. */
  lemma WriteExtends(a: Attrs, declared: set<string>, written: set<string>, f: Attrs, key: string, next: set<string>)
    requires key in f && next == written + {key}
    ensures Write(a + Restrict(f, written * declared), declared, key, f[key]) == a + Restrict(f, next * declared)
  {
    if key !in declared {
      assert next * declared == written * declared;
    }
  }

  /** `setScheduleResourceData`: project the record onto state and track its id in decimal. */
  method SetScheduleResourceData(d: ResourceData, s: Schedule)
    modifies d
    ensures d.attrs == Projection(old(d.attrs), d.declared, s)
    ensures d.id == Itoa(s.id)
  {
    ghost var a, f, declared := d.attrs, StateFields(s), d.declared;
    assert a + Restrict(f, {} * declared) == a;
    d.Set("name", Str(s.name));
    WriteExtends(a, declared, {}, f, "name", {"name"});
    assert d.attrs == a + Restrict(f, {"name"} * declared);
    d.Set("rrule", Str(s.rrule));
    WriteExtends(a, declared, {"name"}, f, "rrule", {"name", "rrule"});
    assert d.attrs == a + Restrict(f, {"name", "rrule"} * declared);
    d.Set("unified_job_template_id", Int(s.unifiedJobTemplate));
    WriteExtends(a, declared, {"name", "rrule"}, f, "unified_job_template_id", {"name", "rrule", "unified_job_template_id"});
    d.Set("description", Str(s.description));
    WriteExtends(a, declared, {"name", "rrule", "unified_job_template_id"}, f, "description", {"name", "rrule", "unified_job_template_id", "description"});
    d.Set("enabled", Bool(s.enabled));
    WriteExtends(a, declared, {"name", "rrule", "unified_job_template_id", "description"}, f, "enabled", {"name", "rrule", "unified_job_template_id", "description", "enabled"});
    d.Set("inventory", Int(s.inventory));
    WriteExtends(a, declared, {"name", "rrule", "unified_job_template_id", "description", "enabled"}, f, "inventory", StateKeys);
    assert d.attrs == a + Restrict(f, StateKeys * declared);
    assert Restrict(f, StateKeys * declared) == Restrict(f, declared);
    d.SetId(Itoa(s.id));
  }

  /**
   * The round trip of the resource: rebuilding the request body from projected state
   * gives back exactly the record's fields, whatever the state held before.
   */
  lemma PayloadOfProjection(a: Attrs, s: Schedule)
    ensures Payload(Projection(a, StateKeys, s)) == RecordFields(s)
  {
  }

  /**
   * When the remote system stores what Create sent, reading it back leaves every
   * schedule attribute with the value it had: the projection is idempotent on state.
   */
  lemma CreateThenReadKeepsState(a: Attrs, s: Schedule)
    requires RecordFields(s) == Payload(a)
    ensures GetString(Projection(a, StateKeys, s), "name") == GetString(a, "name")
    ensures GetString(Projection(a, StateKeys, s), "rrule") == GetString(a, "rrule")
    ensures GetInt(Projection(a, StateKeys, s), "unified_job_template_id") == GetInt(a, "unified_job_template_id")
    ensures GetString(Projection(a, StateKeys, s), "description") == GetString(a, "description")
    ensures GetBool(Projection(a, StateKeys, s), "enabled") == GetBool(a, "enabled")
    ensures GetInt(Projection(a, StateKeys, s), "inventory") == GetInt(a, "inventory")
  {
    assert RecordFields(s)["name"] == Payload(a)["name"];
    assert RecordFields(s)["rrule"] == Payload(a)["rrule"];
    assert RecordFields(s)["unified_job_template"] == Payload(a)["unified_job_template"];
    assert RecordFields(s)["description"] == Payload(a)["description"];
    assert RecordFields(s)["enabled"] == Payload(a)["enabled"];
    assert RecordFields(s)["inventory"] == Payload(a)["inventory"];
  }

  /**
   * Update replaces the whole object: an attribute outside the schema never reaches
   * the body, and changing one schedule attribute changes only its own body entry.
   */
  lemma PayloadIsFullReplacement(a: Attrs, k: string, v: Value, description: string)
    ensures k !in StateKeys ==> Payload(a[k := v]) == Payload(a)
    ensures Payload(a["description" := Str(description)]) == Payload(a)["description" := Str(description)]
  {
  }

  /** Reading again with the same answer changes nothing: the projection is idempotent. */
  lemma ProjectionIdempotent(a: Attrs, declared: set<string>, s: Schedule)
    ensures Projection(Projection(a, declared, s), declared, s) == Projection(a, declared, s)
  {
  }

  /**
   * `resourceScheduleRead`. The tracked id is parsed back to a number (the parse
   * `convertStateIDToNummeric` performs); `fetched` is the answer to `GetByID`.
   */
  method Read(d: ResourceData, fetched: Remote<Schedule>) returns (status: Status, calls: seq<Call>)
    requires d.declared == StateKeys
    modifies d
    ensures Atoi(old(d.id)).None? ==>
              status == Failure(InvalidStateId) && calls == [] && d.attrs == old(d.attrs) && d.id == old(d.id)
    ensures Atoi(old(d.id)).Some? ==> calls == [GetScheduleByID(Atoi(old(d.id)).value)]
    ensures Atoi(old(d.id)).Some? && fetched.Err? ==>
              status == Failure(ResourceNotFound) && d.attrs == old(d.attrs) && d.id == old(d.id)
    ensures Atoi(old(d.id)).Some? && fetched.Ok? ==>
              && status == Success
              && d.attrs == Projection(old(d.attrs), StateKeys, fetched.value)
              && d.id == Itoa(fetched.value.id)
              && Atoi(d.id) == Some(fetched.value.id)
  {
    var parsed := Atoi(d.id);
    if parsed.None? {
      return Failure(InvalidStateId), [];
    }
    calls := [GetScheduleByID(parsed.value)];
    if fetched.Err? {
      return Failure(ResourceNotFound), calls;
    }
    SetScheduleResourceData(d, fetched.value);
    AtoiItoa(fetched.value.id);
    status := Success;
  }

  /**
   * `resourceScheduleCreate`. `created` is the answer to `Create`, `fetched` the
   * answer to the `GetByID` of the Read that follows a successful Create.
   */
  method Create(d: ResourceData, created: Remote<Schedule>, fetched: Remote<Schedule>)
    returns (status: Status, calls: seq<Call>)
    requires d.declared == StateKeys
    modifies d
    ensures created.Err? ==>
              && status == Failure(CreateFailed(created.message))
              && calls == [CreateSchedule(Payload(old(d.attrs)))]
              && d.attrs == old(d.attrs) && d.id == old(d.id)
    ensures created.Ok? ==>
              calls == [CreateSchedule(Payload(old(d.attrs))), GetScheduleByID(created.value.id)]
    ensures created.Ok? && fetched.Err? ==>
              && status == Failure(ResourceNotFound)
              && d.attrs == old(d.attrs) && d.id == Itoa(created.value.id)
    ensures created.Ok? && fetched.Ok? ==>
              && status == Success
              && d.attrs == Projection(old(d.attrs), StateKeys, fetched.value)
              && d.id == Itoa(fetched.value.id)
  {
    calls := [CreateSchedule(Payload(d.attrs))];
    if created.Err? {
      return Failure(CreateFailed(created.message)), calls;
    }
    d.SetId(Itoa(created.value.id));
    AtoiItoa(created.value.id);
    var readCalls;
    status, readCalls := Read(d, fetched);
    calls := calls + readCalls;
  }

  /**
   * `resourceScheduleUpdate`. `existing` is the answer to the existence check
   * `GetByID`, `updated` the answer to `Update`, `fetched` the answer to the
   * `GetByID` of the Read that follows a successful Update.
   */
  method Update(d: ResourceData, existing: Remote<Schedule>, updated: Remote<Schedule>, fetched: Remote<Schedule>)
    returns (status: Status, calls: seq<Call>)
    requires d.declared == StateKeys
    modifies d
    ensures Atoi(old(d.id)).None? ==>
              status == Failure(InvalidStateId) && calls == [] && d.attrs == old(d.attrs) && d.id == old(d.id)
    ensures Atoi(old(d.id)).Some? && existing.Err? ==>
              && status == Failure(ResourceNotFound)
              && calls == [GetScheduleByID(Atoi(old(d.id)).value)]
              && d.attrs == old(d.attrs) && d.id == old(d.id)
    ensures Atoi(old(d.id)).Some? && existing.Ok? && updated.Err? ==>
              && status == Failure(UpdateFailed(updated.message))
              && calls == [GetScheduleByID(Atoi(old(d.id)).value),
                           UpdateSchedule(Atoi(old(d.id)).value, Payload(old(d.attrs)))]
              && d.attrs == old(d.attrs) && d.id == old(d.id)
    ensures Atoi(old(d.id)).Some? && existing.Ok? && updated.Ok? ==>
              && calls == [GetScheduleByID(Atoi(old(d.id)).value),
                           UpdateSchedule(Atoi(old(d.id)).value, Payload(old(d.attrs))),
                           GetScheduleByID(Atoi(old(d.id)).value)]
              && (fetched.Err? ==> status == Failure(ResourceNotFound) && d.attrs == old(d.attrs) && d.id == old(d.id))
              && (fetched.Ok? ==> status == Success && d.attrs == Projection(old(d.attrs), StateKeys, fetched.value)
                                  && d.id == Itoa(fetched.value.id))
  {
    var parsed := Atoi(d.id);
    if parsed.None? {
      return Failure(InvalidStateId), [];
    }
    var id := parsed.value;
    calls := [GetScheduleByID(id)];
    if existing.Err? {
      return Failure(ResourceNotFound), calls;
    }
    calls := calls + [UpdateSchedule(id, Payload(d.attrs))];
    if updated.Err? {
      return Failure(UpdateFailed(updated.message)), calls;
    }
    var readCalls;
    status, readCalls := Read(d, fetched);
    calls := calls + readCalls;
  }

  /**
   * `resourceScheduleDelete`. `deleted` is the answer to `Delete`; the tracked id is
   * cleared only when that call succeeds.
   */
  method Delete(d: ResourceData, deleted: Remote<()>) returns (status: Status, calls: seq<Call>)
    requires d.declared == StateKeys
    modifies d
    ensures d.attrs == old(d.attrs)
    ensures Atoi(old(d.id)).None? ==> status == Failure(InvalidStateId) && calls == [] && d.id == old(d.id)
    ensures Atoi(old(d.id)).Some? ==> calls == [DeleteSchedule(Atoi(old(d.id)).value)]
    ensures Atoi(old(d.id)).Some? && deleted.Err? ==>
              status == Failure(DeleteFailed(deleted.message)) && d.id == old(d.id)
    ensures Atoi(old(d.id)).Some? && deleted.Ok? ==> status == Success && d.id == ""
  {
    var parsed := Atoi(d.id);
    if parsed.None? {
      return Failure(InvalidStateId), [];
    }
    calls := [DeleteSchedule(parsed.value)];
    if deleted.Err? {
      return Failure(DeleteFailed(deleted.message)), calls;
    }
    d.SetId("");
    status := Success;
  }

  /**
   * The resource's lifecycle, absent to present to absent: a Create whose call and
   * read-back both succeed tracks the read-back schedule's id, sends the body built
   * from the configuration, and a successful Delete of that id then clears it.
   */
  method Lifecycle(config: Attrs, created: Schedule, fetched: Schedule)
    returns (idAfterCreate: string, idAfterDelete: string, calls: seq<Call>)
    ensures Atoi(idAfterCreate) == Some(fetched.id)
    ensures idAfterDelete == ""
    ensures calls == [CreateSchedule(Payload(config)), GetScheduleByID(created.id), DeleteSchedule(fetched.id)]
  {
    var d := new ResourceData("", config, StateKeys);
    var _, createCalls := Create(d, Ok(created), Ok(fetched));
    idAfterCreate := d.id;
    AtoiItoa(fetched.id);
    var _, deleteCalls := Delete(d, Ok(()));
    idAfterDelete := d.id;
    calls := createCalls + deleteCalls;
  }
}
