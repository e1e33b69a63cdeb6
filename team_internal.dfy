/**
 * The team data source of the internal provider package: the only selector lookup
 * that refuses an empty filter and reports an empty answer instead of indexing it.
 */
module InternalTeamDataSource {
  import opened Wrappers
  import opened Decimal
  import opened Schema
  import opened Api
  import opened Selector

  /**
   * `dataSourceTeamsRead`. `listed` is the answer to `ListTeams`, `entitlements` the
   * answer to `ListTeamRoleEntitlements`; `projected` is the team and entitlements
   * handed to `setTeamResourceData`.
   */
  method Read(d: ResourceData, listed: Remote<seq<Team>>, entitlements: Remote<seq<RoleEntitlement>>)
    returns (status: Status, calls: seq<Call>, projected: Option<(Team, seq<RoleEntitlement>)>)
    ensures var name := GetOkString(d.attrs, "name");
            var id := GetOkInt(d.attrs, "id");
            name.None? && id.None? ==> status == Failure(MissingParameters) && calls == [] && projected.None?
    ensures var name := GetOkString(d.attrs, "name");
            var id := GetOkInt(d.attrs, "id");
            name.Some? || id.Some? ==>
              && 1 <= |calls| && calls[0].ListTeams? && FilterFor(calls[0].params, name, id)
              && var pick := PickSingle(listed, Guarded);
              && (pick.Rejected? ==> status == pick.status && |calls| == 1 && projected.None?)
              && (pick.Selected? ==> calls[1..] == [ListTeamRoleEntitlements(pick.item.id)])
              && (pick.Selected? && entitlements.Err? ==>
                    status == Failure(FetchFailed(entitlements.message)) && projected.None?)
              && (pick.Selected? && entitlements.Ok? ==>
                    status == Success && projected == Some((pick.item, entitlements.value)))
    ensures status != IndexOutOfRange
  {
    var name := GetOkString(d.attrs, "name");
    var id := GetOkInt(d.attrs, "id");
    var params := SelectorFilter(name, id);
    if |params| == 0 {
      assert params == map[];
      FilterEmptyIff(params, name, id);
      return Failure(MissingParameters), [], None;
    }
    FilterEmptyIff(params, name, id);
    calls := [ListTeams(params)];
    var pick := PickSingle(listed, Guarded);
    if pick.Rejected? {
      return pick.status, calls, None;
    }
    var team := pick.item;
    calls := calls + [ListTeamRoleEntitlements(team.id)];
    if entitlements.Err? {
      return Failure(FetchFailed(entitlements.message)), calls, None;
    }
    status, projected := Success, Some((team, entitlements.value));
  }
}
