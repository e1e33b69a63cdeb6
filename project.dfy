/** The `awx_project` data source: element 0 of the answer is taken without a check. */
module ProjectDataSource {
  import opened Wrappers
  import opened Decimal
  import opened Schema
  import opened Api
  import opened Selector

  /**
   * `dataSourceProjectsRead`. `listed` is the answer to `ListProjects`; `projected`
   * is the project handed to `setProjectResourceData`.
   */
  method Read(d: ResourceData, listed: Remote<seq<Project>>)
    returns (status: Status, calls: seq<Call>, projected: Option<Project>)
    ensures |calls| == 1 && calls[0].ListProjects?
    ensures FilterFor(calls[0].params, GetOkString(d.attrs, "name"), GetOkInt(d.attrs, "id"))
    ensures var pick := PickSingle(listed, Unguarded);
            && status == SelectionStatus(pick)
            && projected == (if pick.Selected? then Some(pick.item) else None)
  {
    var name := GetOkString(d.attrs, "name");
    var id := GetOkInt(d.attrs, "id");
    var params := SelectorFilter(name, id);
    calls := [ListProjects(params)];
    var pick := PickSingle(listed, Unguarded);
    if pick.Rejected? {
      return pick.status, calls, None;
    }
    status, projected := Success, Some(pick.item);
  }
}
