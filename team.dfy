/**
 * The `awx_team` data source: no check for an empty filter, and element 0 of the
 * answer is taken without checking that there is one.
 */
module TeamDataSource {
  import opened Wrappers
  import opened Decimal
  import opened Schema
  import opened Api
  import opened Selector

  /**
   * `dataSourceTeamsRead`. `listed` is the answer to `ListTeams`, `entitlements` the
   * answer to `ListTeamRoleEntitlements`; `projected` is the team and entitlements
   * handed to `setTeamResourceData`.
   */
  method Read(d: ResourceData, listed: Remote<seq<Team>>, entitlements: Remote<seq<RoleEntitlement>>)
    returns (status: Status, calls: seq<Call>, projected: Option<(Team, seq<RoleEntitlement>)>)
    ensures 1 <= |calls| && calls[0].ListTeams?
    ensures FilterFor(calls[0].params, GetOkString(d.attrs, "name"), GetOkInt(d.attrs, "id"))
    ensures var pick := PickSingle(listed, Unguarded);
            && (pick.Rejected? ==> status == pick.status && |calls| == 1 && projected.None?)
            && (pick.Selected? ==> calls[1..] == [ListTeamRoleEntitlements(pick.item.id)])
            && (pick.Selected? && entitlements.Err? ==>
                  status == Failure(FetchFailed(entitlements.message)) && projected.None?)
            && (pick.Selected? && entitlements.Ok? ==>
                  status == Success && projected == Some((pick.item, entitlements.value)))
  {
    var name := GetOkString(d.attrs, "name");
    var id := GetOkInt(d.attrs, "id");
    var params := SelectorFilter(name, id);
    calls := [ListTeams(params)];
    var pick := PickSingle(listed, Unguarded);
    if pick.Rejected? {
      return pick.status, calls, None;
    }
    var team := pick.item;
    calls := calls + [ListTeamRoleEntitlements(team.id)];
    if entitlements.Err? {
      return Failure(FetchFailed(entitlements.message)), calls, None;
    }
    status, projected := Success, Some((team, entitlements.value));
  }
}
