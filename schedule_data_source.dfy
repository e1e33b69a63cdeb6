/**
 * The `awx_schedule` data source: element 0 of the answer is taken without a check
 * and projected with the same setter the schedule resource uses. Its schema declares
 * only `id` and `name`, so of that setter's six writes only `name` lands.
 */
module ScheduleDataSource {
  import opened Wrappers
  import opened Decimal
  import opened Schema
  import opened Api
  import opened Selector
  import ScheduleResource

  /** The attributes the data source's schema declares. */
  const Declared: set<string> := {"id", "name"}

  /**
   * On this schema the resource's projection writes the record's name and nothing
   * else: the other five schedule attributes are not declared here.
   */
  lemma ProjectionWritesOnlyName(a: Attrs, s: Schedule)
    ensures ScheduleResource.Projection(a, Declared, s) == a["name" := Str(s.name)]
  {
    assert ScheduleResource.StateKeys * Declared == {"name"};
  }

  /** `dataSourceSchedulesRead`. `listed` is the answer to the schedule `List` call. */
  method Read(d: ResourceData, listed: Remote<seq<Schedule>>) returns (status: Status, calls: seq<Call>)
    requires d.declared == Declared
    modifies d
    ensures |calls| == 1 && calls[0].ListSchedules?
    ensures FilterFor(calls[0].params, GetOkString(old(d.attrs), "name"), GetOkInt(old(d.attrs), "id"))
    ensures var pick := PickSingle(listed, Unguarded);
            && status == SelectionStatus(pick)
            && (pick.Selected? ==>
                  && d.attrs == old(d.attrs)["name" := Str(pick.item.name)]
                  && d.id == Itoa(pick.item.id)
                  && Atoi(d.id) == Some(pick.item.id))
            && (pick.Rejected? ==> d.attrs == old(d.attrs) && d.id == old(d.id))
  {
    var name := GetOkString(d.attrs, "name");
    var id := GetOkInt(d.attrs, "id");
    var params := SelectorFilter(name, id);
    calls := [ListSchedules(params)];
    var pick := PickSingle(listed, Unguarded);
    if pick.Rejected? {
      return pick.status, calls;
    }
    ScheduleResource.SetScheduleResourceData(d, pick.item);
    ProjectionWritesOnlyName(old(d.attrs), pick.item);
    AtoiItoa(pick.item.id);
    status := Success;
  }
}
