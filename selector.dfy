/**
 * Selector-based single-result lookup shared by the team, project, schedule and
 * inventory-group data sources: the filter map built from the optional `name` and
 * `id` selectors, and the zero/one/many decision on the listed results.
 */
module Selector {
  import opened Wrappers
  import opened Decimal
  import opened Schema
  import opened Api

  /**
   * `params` is the filter for the selectors: key "name" exactly when a name is set,
   * key "id" (the id in decimal) exactly when an id is set, and no other key.
   */
  predicate FilterFor(params: map<string, string>, name: Option<string>, id: Option<GoInt>) {
    && (forall k :: k in params ==> k == "name" || k == "id")
    && ("name" in params <==> name.Some?)
    && (name.Some? ==> params["name"] == name.value)
    && ("id" in params <==> id.Some?)
    && (id.Some? ==> params["id"] == Itoa(id.value))
  }

  /** The selectors as the remote system reads them back from a filter map. */
  function FilterSelectors(params: map<string, string>): (Option<string>, Option<GoInt>) {
    (if "name" in params then Some(params["name"]) else None,
     if "id" in params then Atoi(params["id"]) else None)
  }

  /** Filling `params` step by step from the `GetOk` views of `name` and `id`. */
  method SelectorFilter(name: Option<string>, id: Option<GoInt>) returns (params: map<string, string>)
    ensures FilterFor(params, name, id)
  {
    params := map[];
    if name.Some? {
      params := params["name" := name.value];
    }
    if id.Some? {
      params := params["id" := Itoa(id.value)];
    }
  }

  /** The filter loses nothing: reading it back gives the selectors it was built from. */
  lemma FilterRoundTrip(params: map<string, string>, name: Option<string>, id: Option<GoInt>)
    requires FilterFor(params, name, id)
    ensures FilterSelectors(params) == (name, id)
  {
    if id.Some? {
      AtoiItoa(id.value);
    }
  }

  /** The filter is empty exactly when neither selector is set. */
  lemma FilterEmptyIff(params: map<string, string>, name: Option<string>, id: Option<GoInt>)
    requires FilterFor(params, name, id)
    ensures params == map[] <==> name.None? && id.None?
  {
    if name.Some? {
      assert "name" in params;
    } else if id.Some? {
      assert "id" in params;
    } else {
      assert params.Keys == {};
    }
  }

  /** Whether a handler checks for an empty result before taking element 0. */
  datatype EmptyPolicy = Guarded | Unguarded

  /** The one selected object, or how the handler ends without one. */
  datatype Selection<T> = Selected(item: T) | Rejected(status: Status)

  /**
   * The count checks on a list answer: a failed list call is an error, more than one
   * result is an error carrying the count, exactly one result is selected, and zero
   * results are "does not exist" when guarded and an index-out-of-range panic when not.
   */
  function PickSingle<T>(listed: Remote<seq<T>>, policy: EmptyPolicy): (r: Selection<T>)
    ensures r.Selected? <==> listed.Ok? && |listed.value| == 1
    ensures r.Selected? ==> listed.value == [r.item]
    ensures r.Rejected? ==> r.status != Success
    ensures listed.Err? ==> r == Rejected(Failure(FetchFailed(listed.message)))
    ensures listed.Ok? && |listed.value| > 1 ==> r == Rejected(Failure(MoreThanOne(|listed.value|)))
    ensures r == Rejected(IndexOutOfRange) <==> listed.Ok? && listed.value == [] && policy == Unguarded
    ensures r == Rejected(Failure(DoesNotExist)) <==> listed.Ok? && listed.value == [] && policy == Guarded
  {
    match listed
    case Err(m) => Rejected(Failure(FetchFailed(m)))
    case Ok(items) =>
      if |items| > 1 then Rejected(Failure(MoreThanOne(|items|)))
      else if |items| == 0 then
        match policy
        case Guarded => Rejected(Failure(DoesNotExist))
        case Unguarded => Rejected(IndexOutOfRange)
      else Selected(items[0])
  }

  /** The guarded and unguarded checks differ only on an empty answer. */
  lemma PoliciesAgreeUnlessEmpty<T>(listed: Remote<seq<T>>)
    ensures PickSingle(listed, Guarded) != PickSingle(listed, Unguarded) <==> listed.Ok? && listed.value == []
  {
  }

  /** The status a selection ends the handler with, when nothing follows the selection. */
  function SelectionStatus<T>(s: Selection<T>): Status {
    match s
    case Selected(_) => Success
    case Rejected(st) => st
  }
}
