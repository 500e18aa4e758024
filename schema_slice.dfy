/**
 * The Redux `schema` slice. Each reducer assigns fields of the state draft in
 * place, so the slice state is a class and each reducer a method whose
 * `modifies` clause names exactly the fields it assigns.
 */
module SchemaSlice {
  import opened JsValues
  import opened Graph

  class SchemaStore {
    var nodes: seq<Node>
    var edges: seq<Edge>
    var currentSchemaId: Option<string>
    var schemaName: Value
    var collaborators: seq<string>
    var history: seq<Snapshot>
    var historyIndex: int
    var isSaving: bool

    /** The index names the last history entry, as `addHistoryState` expects. */
    ghost predicate HistoryAligned()
      reads this
    {
      historyIndex == |history| - 1
    }

    /** The slice's `initialState`. */
    constructor ()
      ensures nodes == [] && edges == [] && collaborators == []
      ensures currentSchemaId == None && schemaName == UntitledSchema
      ensures history == [] && historyIndex == -1 && !isSaving
      ensures HistoryAligned()
    {
      nodes, edges := [], [];
      currentSchemaId := None;
      schemaName := UntitledSchema;
      collaborators := [];
      history, historyIndex := [], -1;
      isSaving := false;
    }

    /** Stores the payload if it is an array, and the empty list otherwise. */
    method SetNodes(payload: MaybeArray<Node>)
      modifies this`nodes
      ensures nodes == ArrayOr(payload)
    {
      nodes := if payload.Arr? then payload.items else [];
    }

    method SetEdges(payload: MaybeArray<Edge>)
      modifies this`edges
      ensures edges == ArrayOr(payload)
    {
      edges := if payload.Arr? then payload.items else [];
    }

    method SetCollaborators(payload: MaybeArray<string>)
      modifies this`collaborators
      ensures collaborators == ArrayOr(payload)
    {
      collaborators := if payload.Arr? then payload.items else [];
    }

    method SetCurrentSchemaId(payload: Option<string>)
      modifies this`currentSchemaId
      ensures currentSchemaId == payload
    {
      currentSchemaId := payload;
    }

    method SetSchemaName(payload: Value)
      modifies this`schemaName
      ensures schemaName == payload
    {
      schemaName := payload;
    }

    /** Keeps `history.slice(0, historyIndex + 1)`, appends the payload and
        advances the index by one. From an aligned state this discards the
        entries after the index and keeps the store aligned. */
    method AddHistoryState(payload: Snapshot)
      modifies this`history, this`historyIndex
      ensures history == SliceTo(old(history), old(historyIndex) + 1) + [payload]
      ensures historyIndex == old(historyIndex) + 1
      ensures old(HistoryAligned()) ==> HistoryAligned() && history == old(history) + [payload]
    {
      history := SliceTo(history, historyIndex + 1) + [payload];
      historyIndex := historyIndex + 1;
    }

    /** Stores any index, with no check against the history's length. */
    method SetHistoryIndex(payload: int)
      modifies this`historyIndex
      ensures historyIndex == payload
    {
      historyIndex := payload;
    }

    method SetIsSaving(payload: bool)
      modifies this`isSaving
      ensures isSaving == payload
    {
      isSaving := payload;
    }

    /** Renames every node whose id is `nodeId`; nothing else changes. */
    method UpdateTableName(nodeId: string, newName: Value)
      modifies this`nodes
      ensures nodes == Relabel(old(nodes), nodeId, newName)
    {
      nodes := Relabel(nodes, nodeId, newName);
    }

    /** Appends the payload after the existing nodes. */
    method AddNewTable(payload: Node)
      modifies this`nodes
      ensures nodes == old(nodes) + [payload]
      ensures nodes[..|old(nodes)|] == old(nodes)
    {
      nodes := nodes + [payload];
    }

    /** Removes the nodes with the given id and every edge that starts or ends
        at it; the survivors keep their order. */
    method DeleteTable(nodeId: string)
      modifies this`nodes, this`edges
      ensures nodes == WithoutNode(old(nodes), nodeId)
      ensures edges == WithoutIncident(old(edges), nodeId)
      ensures forall k :: 0 <= k < |edges| ==> edges[k].source != nodeId && edges[k].target != nodeId
    {
      nodes := WithoutNode(nodes, nodeId);
      edges := WithoutIncident(edges, nodeId);
    }
  }

  /** From the initial state, any sequence of `addHistoryState` keeps the index
      on the last entry, and the history is exactly the payloads in order. */
  method ReplayHistory(payloads: seq<Snapshot>) returns (history: seq<Snapshot>, historyIndex: int)
    ensures history == payloads
    ensures historyIndex == |history| - 1
  {
    var store := new SchemaStore();
    var k := 0;
    while k < |payloads|
      invariant 0 <= k <= |payloads|
      invariant store.HistoryAligned()
      invariant store.history == payloads[..k]
    {
      store.AddHistoryState(payloads[k]);
      assert payloads[..k + 1] == payloads[..k] + [payloads[k]];
      k := k + 1;
    }
    assert payloads[..k] == payloads;
    history, historyIndex := store.history, store.historyIndex;
  }

  /** An index moved below -1 by `setHistoryIndex` makes `addHistoryState`
      count from the back: from three entries and index -3, two are kept. */
  method MisalignedAdd(a: Snapshot, b: Snapshot, c: Snapshot, d: Snapshot)
    returns (history: seq<Snapshot>, historyIndex: int)
    ensures history == [a, d] && historyIndex == -2
  {
    var store := new SchemaStore();
    store.AddHistoryState(a);
    store.AddHistoryState(b);
    store.AddHistoryState(c);
    store.SetHistoryIndex(-3);
    store.AddHistoryState(d);
    history, historyIndex := store.history, store.historyIndex;
  }
}
