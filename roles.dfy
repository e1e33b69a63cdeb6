/**
 * Role-slot resolution shared by the organization-role and job-template-role data
 * sources: a fixed, ordered list of role slots (any of them nil) is scanned for the
 * first non-nil slot whose id or name equals the selector.
 */
module Roles {
  import opened Wrappers
  import opened Decimal
  import opened Schema
  import opened Api

  type Slots = seq<Option<ApplyRole>>

  /** What one scan compares a slot with: the role's `ID` or its `Name`. */
  datatype Key = ById(id: GoInt) | ByName(name: string)

  /** The test inside each scan loop: `v != nil && id == v.ID` or `v != nil && name == v.Name`. */
  predicate Matches(slot: Option<ApplyRole>, key: Key) {
    slot.Some? &&
    match key
    case ById(i) => slot.value.id == i
    case ByName(n) => slot.value.name == n
  }

  /** The index of the first slot the key matches, if there is one. */
  function FirstMatch(slots: Slots, key: Key): (r: Option<nat>)
    ensures r.Some? ==> r.value < |slots| && Matches(slots[r.value], key)
    ensures r.Some? ==> forall j :: 0 <= j < r.value ==> !Matches(slots[j], key)
    ensures r.None? ==> forall j :: 0 <= j < |slots| ==> !Matches(slots[j], key)
    decreases |slots|
  {
    if slots == [] then None
    else if Matches(slots[0], key) then Some(0)
    else match FirstMatch(slots[1..], key)
      case None => None
      case Some(i) => Some(i + 1)
  }

  /** The `for _, v := range roleslist` loop with its early return on the first match. */
  method Scan(slots: Slots, key: Key) returns (found: Option<nat>)
    ensures found == FirstMatch(slots, key)
  {
    var i := 0;
    while i < |slots|
      invariant 0 <= i <= |slots|
      invariant forall j :: 0 <= j < i ==> !Matches(slots[j], key)
    {
      if Matches(slots[i], key) {
        return Some(i);
      }
      i := i + 1;
    }
    return None;
  }

  /** The outcome of a role data source's lookup. */
  datatype RoleLookup = Found(role: ApplyRole) | NotFound | MissingParam | ParentFetchFailed(message: string)

  /** The scan for an `id` selector, present only when `GetOk("id")` reports it set. */
  function IdKeys(id: Option<GoInt>): seq<Key> {
    if id.Some? then [ById(id.value)] else []
  }

  /** The scan for a `name` selector, present only when `GetOk("name")` reports it set. */
  function NameKeys(name: Option<string>): seq<Key> {
    if name.Some? then [ByName(name.value)] else []
  }

  /** The scans for the keys before `j` all find nothing. */
  predicate ScansMiss(slots: Slots, keys: seq<Key>, j: nat)
    requires j <= |keys|
  {
    forall k :: 0 <= k < j ==> FirstMatch(slots, keys[k]).None?
  }

  /** Dropping a first key whose scan missed shifts the missed prefix by one. */
  lemma MissesShift(slots: Slots, keys: seq<Key>)
    requires keys != [] && FirstMatch(slots, keys[0]).None?
    ensures forall j :: 1 <= j <= |keys| ==> (ScansMiss(slots, keys, j) <==> ScansMiss(slots, keys[1..], j - 1))
  {
    forall j | 1 <= j <= |keys|
      ensures ScansMiss(slots, keys, j) <==> ScansMiss(slots, keys[1..], j - 1)
    {
      assert forall k :: 1 <= k < j ==> keys[k] == keys[1..][k - 1];
    }
  }

  /**
   * Runs the scans in the order given and stops at the first scan that finds a slot:
   * when the scans before key `j` find nothing and the scan for key `j` finds a slot,
   * that slot's role is the result. The result is always `Found` or `NotFound`.
   */
  function Resolve(slots: Slots, keys: seq<Key>): (r: RoleLookup)
    ensures r.Found? || r.NotFound?
    ensures r.Found? ==>
              exists j, i :: 0 <= j < |keys| && 0 <= i < |slots| && slots[i] == Some(r.role) && Matches(slots[i], keys[j])
    ensures r.NotFound? <==> forall j, i :: 0 <= j < |keys| && 0 <= i < |slots| ==> !Matches(slots[i], keys[j])
    ensures keys != [] && FirstMatch(slots, keys[0]).Some? ==>
              r == Found(slots[FirstMatch(slots, keys[0]).value].value)
    ensures forall j :: 0 <= j < |keys| && ScansMiss(slots, keys, j) && FirstMatch(slots, keys[j]).Some? ==>
              r == Found(slots[FirstMatch(slots, keys[j]).value].value)
    decreases |keys|
  {
    if keys == [] then NotFound
    else match FirstMatch(slots, keys[0])
      case Some(i) => Found(slots[i].value)
      case None =>
        var rest := Resolve(slots, keys[1..]);
        assert forall j :: 1 <= j < |keys| ==> keys[j] == keys[1..][j - 1];
        MissesShift(slots, keys);
        rest
  }

  /** What a role lookup reports to Terraform. */
  function LookupStatus(r: RoleLookup): (s: Status)
    ensures s == Success <==> r.Found?
  {
    match r
    case Found(_) => Success
    case NotFound => Failure(ResourceNotFound)
    case MissingParam => Failure(MissingParameters)
    case ParentFetchFailed(m) => Failure(FetchFailed(m))
  }

  /**
   * `setOrganizationRoleData` and `setJobTemplateRoleData` (identical): the state's
   * `name` becomes the role's name and the tracked id the decimal text of its id.
   */
  method SetRoleData(d: ResourceData, r: ApplyRole)
    requires "name" in d.declared
    modifies d
    ensures d.attrs == old(d.attrs)["name" := Str(r.name)]
    ensures d.id == Itoa(r.id)
  {
    d.Set("name", Str(r.name));
    d.SetId(Itoa(r.id));
  }
}
