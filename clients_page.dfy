/** The client list page: the search filter and the delete dialog's state. */
module ClientsPage {
  import opened Wrappers
  import opened Strings
  import opened Lists

  /** The fields of a client row the page searches and deletes by. */
  datatype ClientRow = ClientRow(id: int, dni: string, names: string, lastNames: string, email: Option<string>)

  /** `${dni} ${names} ${last_names} ${email ?? ""}`. */
  function Haystack(c: ClientRow): string
  {
    c.dni + " " + c.names + " " + c.lastNames + " " + c.email.GetOr("")
  }

  /** The query as the filter uses it: trimmed and lowercased. */
  function Query(query: string): string
  {
    ToLower(Trim(query))
  }

  predicate Keeps(c: ClientRow, q: string)
  {
    Contains(ToLower(Haystack(c)), q)
  }

  /** `filtered`: everything for a blank query, otherwise the clients whose haystack contains it. */
  function FilterClients(clients: seq<ClientRow>, query: string): (r: seq<ClientRow>)
    ensures Trim(query) == "" ==> r == clients
    ensures Trim(query) != "" ==> forall k :: 0 <= k < |r| ==> Keeps(r[k], Query(query))
    ensures forall k :: 0 <= k < |clients| && Keeps(clients[k], Query(query)) ==> clients[k] in r
    ensures forall k :: 0 <= k < |r| ==> r[k] in clients
  {
    var q := Query(query);
    if q == "" then
      forall k | 0 <= k < |clients| ensures clients[k] in clients { }
      clients
    else Filter(clients, (c: ClientRow) => Keeps(c, q))
  }

  /** The filter keeps each matching client as often as it occurs, drops each other one, and keeps the order. */
  lemma FilterClientsExactly(clients: seq<ClientRow>, query: string, c: ClientRow)
    requires Trim(query) != ""
    ensures multiset(FilterClients(clients, query))[c] == if Keeps(c, Query(query)) then multiset(clients)[c] else 0
    ensures IsSubsequence(FilterClients(clients, query), clients)
  {
    var q := Query(query);
    FilterMultiplicity(clients, (c: ClientRow) => Keeps(c, q), c);
    FilterIsSubsequence(clients, (c: ClientRow) => Keeps(c, q));
  }

  /** Typing more narrows the list: when the first query occurs in the second, the second keeps fewer clients. */
  lemma LongerQueryNarrows(clients: seq<ClientRow>, q1: string, q2: string)
    requires Contains(Trim(q2), Trim(q1))
    ensures forall k :: 0 <= k < |FilterClients(clients, q2)| ==> FilterClients(clients, q2)[k] in FilterClients(clients, q1)
  {
    var r1, r2 := FilterClients(clients, q1), FilterClients(clients, q2);
    ContainsToLower(Trim(q2), Trim(q1));
    if Trim(q1) != "" {
      assert Trim(q2) != "";
      forall k | 0 <= k < |r2|
        ensures r2[k] in r1
      {
        var j :| 0 <= j < |clients| && clients[j] == r2[k];
        ContainsTransitive(ToLower(Haystack(r2[k])), Query(q2), Query(q1));
      }
    }
  }

  /** The page's list and delete-dialog state. */
  class ClientsView {
    var userId: Option<string>
    var clients: seq<ClientRow>
    var busy: bool
    var deleteOpen: bool
    var deletingId: Option<int>

    constructor(userId0: Option<string>, clients0: seq<ClientRow>)
      ensures userId == userId0 && clients == clients0 && !busy && !deleteOpen && deletingId == None
    {
      userId, clients := userId0, clients0;
      busy, deleteOpen, deletingId := false, false, None;
    }

    /** `askDelete`. */
    method AskDelete(id: int)
      modifies this
      ensures deletingId == Some(id) && deleteOpen
      ensures userId == old(userId) && clients == old(clients) && busy == old(busy)
    {
      deletingId := Some(id);
      deleteOpen := true;
    }

    /** `cancelDelete`: ignored while a request is in flight. */
    method CancelDelete()
      modifies this
      ensures old(busy) ==> deleteOpen == old(deleteOpen) && deletingId == old(deletingId)
      ensures !old(busy) ==> !deleteOpen && deletingId == None
      ensures userId == old(userId) && clients == old(clients) && busy == old(busy)
    {
      if busy {
        return;
      }
      deleteOpen := false;
      deletingId := None;
    }

    /**
     * `confirmDelete`: nothing without a pending id; otherwise the delete is
     * attempted (`deleteOk` is its outcome) and the dialog closes either way.
     * A successful delete reloads the list, which then lacks the client.
     */
    method ConfirmDelete(deleteOk: bool)
      modifies this
      ensures userId == old(userId)
      ensures old(deletingId).None? ==>
        clients == old(clients) && busy == old(busy) && deleteOpen == old(deleteOpen) && deletingId == None
      ensures old(deletingId).Some? ==> !deleteOpen && deletingId == None
      ensures old(deletingId).Some? && old(userId).Some? && old(userId).value != "" ==>
        var id := old(deletingId).value;
        !busy && clients == (if deleteOk then Filter(old(clients), (c: ClientRow) => c.id != id) else old(clients))
      ensures old(deletingId).Some? && (old(userId).None? || old(userId).value == "") ==>
        clients == old(clients) && busy == old(busy)
    {
      if deletingId.None? {
        return;
      }
      var id := deletingId.value;
      if userId.Some? && userId.value != "" {
        busy := true;
        if deleteOk {
          clients := Filter(clients, (c: ClientRow) => c.id != id);
        }
        busy := false;
      }
      deleteOpen := false;
      deletingId := None;
    }
  }

  /** After a successful delete the reloaded list holds no client with that id and every other client. */
  lemma DeleteRemovesOnlyThatClient(clients: seq<ClientRow>, id: int, c: ClientRow)
    ensures var r := Filter(clients, (c: ClientRow) => c.id != id);
      multiset(r)[c] == if c.id == id then 0 else multiset(clients)[c]
  {
    FilterMultiplicity(clients, (c: ClientRow) => c.id != id, c);
  }
}
