/**
 * The `awx_inventory_group` data source: the list call is scoped to a required
 * inventory, and element 0 of the answer is taken without a check.
 */
module InventoryGroupDataSource {
  import opened Wrappers
  import opened Decimal
  import opened Schema
  import opened Api
  import opened Selector

  /**
   * `dataSourceInventoryGroupRead`. `listed` is the answer to `ListInventoryGroups`;
   * `projected` is the group handed to `setInventoryGroupResourceData`.
   */
  method Read(d: ResourceData, listed: Remote<seq<InventoryGroup>>)
    returns (status: Status, calls: seq<Call>, projected: Option<InventoryGroup>)
    ensures var inventoryId := GetInt(d.attrs, "inventory_id");
            inventoryId == 0 ==> status == Failure(MissingParameters) && calls == [] && projected.None?
    ensures var inventoryId := GetInt(d.attrs, "inventory_id");
            inventoryId != 0 ==>
              && |calls| == 1 && calls[0].ListInventoryGroups?
              && calls[0].inventoryId == inventoryId
              && FilterFor(calls[0].params, GetOkString(d.attrs, "name"), GetOkInt(d.attrs, "id"))
              && var pick := PickSingle(listed, Unguarded);
              && status == SelectionStatus(pick)
              && projected == (if pick.Selected? then Some(pick.item) else None)
  {
    var inventoryId := GetInt(d.attrs, "inventory_id");
    if inventoryId == 0 {
      return Failure(MissingParameters), [], None;
    }
    var name := GetOkString(d.attrs, "name");
    var id := GetOkInt(d.attrs, "id");
    var params := SelectorFilter(name, id);
    calls := [ListInventoryGroups(GetInt(d.attrs, "inventory_id"), params)];
    var pick := PickSingle(listed, Unguarded);
    if pick.Rejected? {
      return pick.status, calls, None;
    }
    status, projected := Success, Some(pick.item);
  }
}
