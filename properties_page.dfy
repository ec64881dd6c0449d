/** The property list page: the search filter and the delete dialog's state. */
module PropertiesPage {
  import opened Wrappers
  import opened Strings
  import opened Lists

  /** The fields of a property row the page searches and deletes by. */
  datatype PropertyRow = PropertyRow(id: int, name: string, location: string, propertyType: string, currency: string)

  /** `${name} ${location} ${property_type} ${currency}`. */
  function Haystack(p: PropertyRow): string
  {
    p.name + " " + p.location + " " + p.propertyType + " " + p.currency
  }

  function Query(query: string): string
  {
    ToLower(Trim(query))
  }

  predicate Keeps(p: PropertyRow, q: string)
  {
    Contains(ToLower(Haystack(p)), q)
  }

  /** `filtered`: everything for a blank query, otherwise the properties whose haystack contains it. */
  function FilterProperties(props: seq<PropertyRow>, query: string): (r: seq<PropertyRow>)
    ensures Trim(query) == "" ==> r == props
    ensures Trim(query) != "" ==> forall k :: 0 <= k < |r| ==> Keeps(r[k], Query(query))
    ensures forall k :: 0 <= k < |props| && Keeps(props[k], Query(query)) ==> props[k] in r
    ensures forall k :: 0 <= k < |r| ==> r[k] in props
  {
    var q := Query(query);
    if q == "" then
      forall k | 0 <= k < |props| ensures props[k] in props { }
      props
    else Filter(props, (p: PropertyRow) => Keeps(p, q))
  }

  /** The filter keeps each matching property as often as it occurs, drops each other one, and keeps the order. */
  lemma FilterPropertiesExactly(props: seq<PropertyRow>, query: string, p: PropertyRow)
    requires Trim(query) != ""
    ensures multiset(FilterProperties(props, query))[p] == if Keeps(p, Query(query)) then multiset(props)[p] else 0
    ensures IsSubsequence(FilterProperties(props, query), props)
  {
    var q := Query(query);
    FilterMultiplicity(props, (p: PropertyRow) => Keeps(p, q), p);
    FilterIsSubsequence(props, (p: PropertyRow) => Keeps(p, q));
  }

  /** The haystack ends with the currency, so a query that reads "usd" once trimmed and lowercased keeps every USD property. */
  lemma UsdQueryKeepsUsd(props: seq<PropertyRow>, query: string)
    requires Query(query) == ToLower("USD")
    ensures forall k :: 0 <= k < |props| && props[k].currency == "USD" ==> props[k] in FilterProperties(props, query)
  {
    forall k | 0 <= k < |props| && props[k].currency == "USD"
      ensures Keeps(props[k], Query(query))
    {
      var p := props[k];
      var front := p.name + " " + p.location + " " + p.propertyType + " ";
      assert Haystack(p) == front + p.currency;
      ToLowerAppend(front, p.currency);
      ContainsSelf(ToLower(p.currency));
      ContainsAppendRight(ToLower(front), ToLower(p.currency), ToLower(p.currency));
    }
  }

  /** The page's list and delete-dialog state. */
  class PropertiesView {
    var userId: Option<string>
    var properties: seq<PropertyRow>
    var busy: bool
    var deleteOpen: bool
    var deletingId: Option<int>

    constructor(userId0: Option<string>, props0: seq<PropertyRow>)
      ensures userId == userId0 && properties == props0 && !busy && !deleteOpen && deletingId == None
    {
      userId, properties := userId0, props0;
      busy, deleteOpen, deletingId := false, false, None;
    }

    /** `askDelete`. */
    method AskDelete(id: int)
      modifies this
      ensures deletingId == Some(id) && deleteOpen
      ensures userId == old(userId) && properties == old(properties) && busy == old(busy)
    {
      deletingId := Some(id);
      deleteOpen := true;
    }

    /** `cancelDelete`: ignored while a request is in flight. */
    method CancelDelete()
      modifies this
      ensures old(busy) ==> deleteOpen == old(deleteOpen) && deletingId == old(deletingId)
      ensures !old(busy) ==> !deleteOpen && deletingId == None
      ensures userId == old(userId) && properties == old(properties) && busy == old(busy)
    {
      if busy {
        return;
      }
      deleteOpen := false;
      deletingId := None;
    }

    /**
     * `deleteProperty`: false without a user; otherwise the delete is
     * attempted (`deleteOk` is its outcome) and a success reloads the list.
     */
    method DeleteProperty(id: int, deleteOk: bool) returns (ok: bool)
      modifies this
      ensures ok <==> old(userId).Some? && old(userId).value != "" && deleteOk
      ensures old(userId).Some? && old(userId).value != "" ==> !busy
      ensures !(old(userId).Some? && old(userId).value != "") ==> busy == old(busy)
      ensures properties == if ok then Filter(old(properties), (p: PropertyRow) => p.id != id) else old(properties)
      ensures userId == old(userId) && deleteOpen == old(deleteOpen) && deletingId == old(deletingId)
    {
      if userId.None? || userId.value == "" {
        return false;
      }
      busy := true;
      if deleteOk {
        properties := Filter(properties, (p: PropertyRow) => p.id != id);
      }
      busy := false;
      ok := deleteOk;
    }

    /** `confirmDelete`: the dialog closes only when the delete reports success. */
    method ConfirmDelete(deleteOk: bool)
      modifies this
      ensures userId == old(userId)
      ensures old(deletingId).None? ==> unchanged(this)
      ensures old(deletingId).Some? ==>
        var ok, id := old(userId).Some? && old(userId).value != "" && deleteOk, old(deletingId).value;
        && (ok ==> !deleteOpen && deletingId == None &&
                   properties == Filter(old(properties), (p: PropertyRow) => p.id != id))
        && (!ok ==> deleteOpen == old(deleteOpen) && deletingId == old(deletingId) && properties == old(properties))
        && (old(userId).Some? && old(userId).value != "" ==> !busy)
        && (!(old(userId).Some? && old(userId).value != "") ==> busy == old(busy))
    {
      if deletingId.None? {
        return;
      }
      var ok := DeleteProperty(deletingId.value, deleteOk);
      if ok {
        deleteOpen := false;
        deletingId := None;
      }
    }
  }
}
