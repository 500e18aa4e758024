/**
 * The schema builder screen: its live graph and save state (class `Editor`),
 * the load-time coercion, the autosave guard and sequence, the graph-edit
 * handlers, and the ordering of the user's schema list.
 */
module SchemaBuilder {
  import opened JsValues
  import opened Graph
  import opened Sanitizer
  import opened UndoRedo

  // ---------------------------------------------------------------------------
  // Pure graph edits.

  /** The node `handleAddNewTable` appends when the canvas holds `count` nodes:
      id `table-<count+1>`, label `Table <count+1>`, and an integer primary
      key `id` followed by a `created_at` timestamp. */
  function NewTableNode(count: nat, at: Position): (r: Node)
    ensures r.kind == TableKind && r.position == at && r.style == NoStyle && r.props == map[]
    ensures |r.id| > 6 && r.id[..6] == "table-"
    ensures (forall k :: 6 <= k < |r.id| ==> IsDigit(r.id[k])) && DigitsValue(r.id[6..]) == count + 1
    ensures r.data.title.Str? && |r.data.title.s| > 6 && r.data.title.s[6..] == r.id[6..]
    ensures r.data.columns.Arr? && |r.data.columns.items| == 2
    ensures forall k :: 0 <= k < 2 ==> CanonicalColumn(r.data.columns.items[k])
    ensures r.data.columns.items[0].name == Str("id") && r.data.columns.items[0].isPrimary == Bool(true)
    ensures !Truthy(r.data.columns.items[1].isPrimary)
    ensures r.data.title == Str("Table " + r.id[6..])
    ensures r.data.columns.items == [Column(Str("id"), Str("integer"), Bool(true), Bool(false), Null),
                                     Column(Str("created_at"), Str("timestamp"), Bool(false), Bool(false), Null)]
    ensures r.data.color == Undefined && r.data.borderColor == Undefined && r.data.props == map[]
  {
    var d := NatToString(count + 1);
    assert ("table-" + d)[6..] == d && ("Table " + d)[6..] == d;
    Node("table-" + NatToString(count + 1), TableKind, at,
         NodeData(Str("Table " + NatToString(count + 1)), Undefined,
                  Arr([Column(Str("id"), Str("integer"), Bool(true), Bool(false), Null),
                       Column(Str("created_at"), Str("timestamp"), Bool(false), Bool(false), Null)]),
                  Undefined, map[]),
         NoStyle, map[])
  }

  /** The columns of a new table are already in sanitized form: a save only
      adds the default colour and background. */
  lemma NewTableColumnsCanonical(count: nat, at: Position)
    ensures var n := NewTableNode(count, at);
            && SanitizeNode(n).data.columns == n.data.columns
            && SanitizeNode(n).data.title == n.data.title
            && SanitizeNode(n).data.color == DefaultColor
            && SanitizeNode(n).style == StyleObj(DefaultBackground, map[])
  {
    var n := NewTableNode(count, at);
    CanonicalColumnsKept(n);
  }

  /** Sanitizing a table whose columns are all canonical keeps the columns. */
  lemma CanonicalColumnsKept(n: Node)
    requires n.kind == TableKind && n.data.columns.Arr?
    requires forall k :: 0 <= k < |n.data.columns.items| ==> CanonicalColumn(n.data.columns.items[k])
    ensures SanitizeNode(n).data.columns == n.data.columns
  {
    var cs := n.data.columns.items;
    forall k | 0 <= k < |cs| ensures SanitizeColumn(cs[k]) == cs[k] {
      ColumnFixedPoint(cs[k]);
    }
    assert SanitizeColumns(n.kind, n.data.columns).items == cs;
  }

  /** Ids come from the node count, so after a table is deleted the next new
      table reuses the id of a table still on the canvas. */
  lemma NewTableIdReused(p: Position, q: Position, r: Position)
    ensures var nodes := WithoutNode([NewTableNode(0, p), NewTableNode(1, q)], "table-1");
            && |nodes| == 1
            && NewTableNode(|nodes|, r).id == nodes[0].id
  {
    var a, b := NewTableNode(0, p), NewTableNode(1, q);
    assert a.id == "table-1" by { assert NatToString(1) == "1"; }
    assert b.id != "table-1" by {
      assert "table-1"[6..] == "1" && DigitsValue("1") == 1;
    }
    assert NewTableNode(1, r).id == b.id;
    assert [a, b][1..] == [b];
    assert [b][1..] == [];
  }

  /** An id of the form `table-<digits>`, the form `handleAddNewTable` gives. */
  predicate IsTableId(id: string) {
    |id| > 6 && id[..6] == "table-" && forall k :: 6 <= k < |id| ==> IsDigit(id[k])
  }

  /** The largest number of a `table-<digits>` id on the canvas, 0 when there
      is none. */
  function MaxTableNumber(nodes: seq<Node>): (m: nat)
    ensures forall k :: 0 <= k < |nodes| && IsTableId(nodes[k].id) ==> DigitsValue(nodes[k].id[6..]) <= m
    ensures m == 0 || exists k :: 0 <= k < |nodes| && IsTableId(nodes[k].id) && DigitsValue(nodes[k].id[6..]) == m
  {
    if nodes == [] then 0
    else
      var init, last := nodes[..|nodes| - 1], nodes[|nodes| - 1];
      var m := MaxTableNumber(init);
      assert forall k :: 0 <= k < |init| ==> init[k] == nodes[k];
      if IsTableId(last.id) && DigitsValue(last.id[6..]) > m then DigitsValue(last.id[6..]) else m
  }

  /** The new table with an id no node on the canvas has: its number is one
      more than both the node count and every table number in use. While no
      table number exceeds the count (no table was deleted), it is the node
      `handleAddNewTable` builds. */
  function FreshTableNode(nodes: seq<Node>, at: Position): (r: Node)
    ensures forall k :: 0 <= k < |nodes| ==> nodes[k].id != r.id
    ensures (forall k :: 0 <= k < |nodes| && IsTableId(nodes[k].id) ==> DigitsValue(nodes[k].id[6..]) <= |nodes|)
            ==> r == NewTableNode(|nodes|, at)
  {
    var m := MaxTableNumber(nodes);
    var r := NewTableNode(if m > |nodes| then m else |nodes|, at);
    assert IsTableId(r.id);
    r
  }

  /** `onConnect` links a colour chooser to a table exactly when the source
      node is a colour chooser and the target node a table. */
  predicate LinksColor(nodes: seq<Node>, source: string, target: string) {
    var s := FindNode(nodes, source);
    var t := FindNode(nodes, target);
    s.Some? && t.Some? && s.value.kind == ColorKind && t.value.kind == TableKind
  }

  /** The node list after `onConnect`: when a colour chooser is linked to a
      table, every node with the target's id gets the chooser's colour as its
      border colour and nothing else about it changes; otherwise the list is
      unchanged. (The edge itself is added by React Flow.) */
  function ConnectRecolor(nodes: seq<Node>, source: string, target: string): (r: seq<Node>)
    ensures |r| == |nodes|
    ensures !LinksColor(nodes, source, target) ==> r == nodes
    ensures forall k :: 0 <= k < |nodes| && nodes[k].id != target ==> r[k] == nodes[k]
    ensures LinksColor(nodes, source, target) ==>
              forall k :: 0 <= k < |nodes| && nodes[k].id == target ==>
                r[k].data.borderColor == FindNode(nodes, source).value.data.color
                && r[k].(data := r[k].data.(borderColor := nodes[k].data.borderColor)) == nodes[k]
  {
    if LinksColor(nodes, source, target) then
      var color := FindNode(nodes, source).value.data.color;
      seq(|nodes|, k requires 0 <= k < |nodes| =>
        if nodes[k].id == target then nodes[k].(data := nodes[k].data.(borderColor := color))
        else nodes[k])
    else nodes
  }

  // ---------------------------------------------------------------------------
  // The schema list, newest first.

  function Modified(s: StoredSchema): int {
    s.record.lastModified
  }

  /** Largest key first. */
  predicate Descending<T>(s: seq<T>, key: T -> int) {
    forall i, j :: 0 <= i < j < |s| ==> key(s[i]) >= key(s[j])
  }

  /** Putting a key no smaller than the head's in front keeps the order. */
  lemma ConsDescending<T>(y: T, t: seq<T>, key: T -> int)
    requires Descending(t, key) && (t != [] ==> key(y) >= key(t[0]))
    ensures Descending([y] + t, key)
  {
    var r := [y] + t;
    forall i, j | 0 <= i < j < |r| ensures key(r[i]) >= key(r[j]) {
      assert r[j] == t[j - 1];
      if i > 0 {
        assert r[i] == t[i - 1];
      }
    }
  }

  /** Inserts `x` into a list in descending key order, before the first entry
      whose key is not larger. */
  function InsertDescending<T>(x: T, s: seq<T>, key: T -> int): (r: seq<T>)
    requires Descending(s, key)
    ensures Descending(r, key)
    ensures multiset(r) == multiset(s) + multiset{x}
    ensures |r| == |s| + 1 && (r[0] == x || (s != [] && r[0] == s[0]))
  {
    if s == [] then [x]
    else if key(s[0]) <= key(x) then
      ConsDescending(x, s, key);
      [x] + s
    else
      assert s == [s[0]] + s[1..];
      var t := InsertDescending(x, s[1..], key);
      ConsDescending(s[0], t, key);
      [s[0]] + t
  }

  /** Insertion sort into descending key order: a permutation of the input. */
  function SortDescending<T>(s: seq<T>, key: T -> int): (r: seq<T>)
    ensures Descending(r, key)
    ensures multiset(r) == multiset(s)
    ensures |r| == |s|
  {
    if s == [] then []
    else
      assert s == [s[0]] + s[1..];
      InsertDescending(s[0], SortDescending(s[1..], key), key)
  }

  /** `.sort((a, b) => new Date(b.lastModified) - new Date(a.lastModified))`:
      the same schemas, newest first. */
  function SortByLastModified(s: seq<StoredSchema>): (r: seq<StoredSchema>)
    ensures forall i, j :: 0 <= i < j < |r| ==> r[i].record.lastModified >= r[j].record.lastModified
    ensures multiset(r) == multiset(s)
  {
    var r := SortDescending(s, Modified);
    assert forall i, j :: 0 <= i < j < |r| ==> Modified(r[i]) >= Modified(r[j]);
    r
  }

  // ---------------------------------------------------------------------------
  // The editor.

  /** The record `autoSave` writes: the sanitized graph, the schema name or
      its default, and the clock reading as modification time. */
  function SaveRecord(uid: string, name: Value, nodes: seq<Node>, edges: seq<Edge>, now: nat): (r: SchemaRecord)
    ensures r.userId == uid && r.lastModifiedBy == uid && r.lastModified == now
    ensures Truthy(r.name) && (Truthy(name) ==> r.name == name) && (!Truthy(name) ==> r.name == UntitledSchema)
    ensures r.nodes.Arr? && |r.nodes.items| == |nodes|
    ensures forall k :: 0 <= k < |nodes| ==> CanonicalNode(r.nodes.items[k]) && r.nodes.items[k].id == nodes[k].id
    ensures r.edges.Arr? && |r.edges.items| == |edges|
    ensures forall k :: 0 <= k < |edges| ==>
              CanonicalEdge(r.edges.items[k])
              && r.edges.items[k].source == edges[k].source && r.edges.items[k].target == edges[k].target
    ensures forall k :: 0 <= k < |nodes| ==> r.nodes.items[k] == SanitizeNode(nodes[k])
    ensures forall k :: 0 <= k < |edges| ==> r.edges.items[k] == SanitizeEdge(edges[k], now)
    ensures r.collaborators == NotArr(Undefined)
  {
    SchemaRecord(uid, Or(name, UntitledSchema), Arr(SanitizeNodes(nodes)),
                 Arr(SanitizeEdges(edges, now)), now, uid, NotArr(Undefined))
  }

  /** How an autosave attempt ended. `Failed` records whether the realtime
      write, which comes first, had succeeded. */
  datatype SaveReport = Skipped | Saved(record: SchemaRecord) | Failed(record: SchemaRecord, realtimeWritten: bool)

  class Editor {
    var nodes: seq<Node>
    var edges: seq<Edge>
    var schemaName: Value
    var currentSchemaId: Option<string>
    var isSaving: bool
    /** The record of the save in flight, between the start of the writes
        and their completion. */
    var pending: Option<SchemaRecord>
    const currentUser: Option<string>
    const history: History

    ghost predicate Valid()
      reads this, history
    {
      && history.Valid()
      && (isSaving <==> pending.Some?)
      && (pending.Some? ==> pending.value.nodes.Arr? && pending.value.edges.Arr?)
    }

    /** A fresh builder: an empty canvas, the default name, no schema id, and a
        history holding the empty graph. */
    constructor (user: Option<string>)
      ensures Valid() && fresh(history)
      ensures nodes == [] && edges == [] && schemaName == UntitledSchema
      ensures currentSchemaId == None && !isSaving && currentUser == user
      ensures history.history == [Snapshot([], [])] && history.currentIndex == 0
    {
      nodes, edges := [], [];
      schemaName := UntitledSchema;
      currentSchemaId := None;
      isSaving := false;
      pending := None;
      currentUser := user;
      history := new History([], []);
    }

    /** The load effect. Without a user nothing happens. The schema id is the
        requested one if it is non-empty, else the current one. A realtime
        copy wins over the document copy; when only the document exists it is
        copied back to the realtime store with array-coerced graph, the clock
        reading and the user as modifier. Loading coerces non-array graphs to
        empty lists and a falsy name to the default. */
    method LoadSchema(requested: Option<string>, realtime: Option<SchemaRecord>,
                      document: Option<SchemaRecord>, now: nat)
      returns (writeBack: Option<SchemaRecord>)
      modifies this`nodes, this`edges, this`schemaName, this`currentSchemaId
      ensures var id := if requested.Some? && requested.value != "" then requested else old(currentSchemaId);
              var data := if realtime.Some? then realtime else document;
              if currentUser.None? || id.None? || id.value == "" || data.None? then
                && nodes == old(nodes) && edges == old(edges) && schemaName == old(schemaName)
                && currentSchemaId == old(currentSchemaId) && writeBack == None
              else
                && nodes == ArrayOr(data.value.nodes) && edges == ArrayOr(data.value.edges)
                && schemaName == Or(data.value.name, UntitledSchema)
                && currentSchemaId == id
                && writeBack == if realtime.Some? then None
                                else Some(data.value.(nodes := Arr(nodes), edges := Arr(edges),
                                                      lastModified := now,
                                                      lastModifiedBy := currentUser.value))
    {
      writeBack := None;
      if currentUser.None? {
        return;
      }
      var id := if requested.Some? && requested.value != "" then requested else currentSchemaId;
      if id.None? || id.value == "" {
        return;
      }
      var data := if realtime.Some? then realtime else document;
      if data.None? {
        return;
      }
      nodes := if data.value.nodes.Arr? then data.value.nodes.items else [];
      edges := if data.value.edges.Arr? then data.value.edges.items else [];
      schemaName := Or(data.value.name, UntitledSchema);
      currentSchemaId := id;
      if realtime.None? {
        writeBack := Some(data.value.(nodes := Arr(nodes), edges := Arr(edges),
                                      lastModified := now, lastModifiedBy := currentUser.value));
      }
    }

    /** The first half of `autoSave`, up to the writes. It does nothing when
        there is no user, no schema id, or a save already in flight;
        otherwise it raises the in-flight flag and fixes the record to write. */
    method BeginSave(now: nat) returns (started: bool)
      requires Valid()
      modifies this`isSaving, this`pending
      ensures Valid()
      ensures started <==> old(currentUser.Some? && currentSchemaId.Some? && currentSchemaId.value != "" && !isSaving)
      ensures !started ==> isSaving == old(isSaving) && pending == old(pending)
      ensures started ==> isSaving && pending == Some(SaveRecord(currentUser.value, schemaName, nodes, edges, now))
    {
      if currentUser.None? || currentSchemaId.None? || currentSchemaId.value == "" || isSaving {
        return false;
      }
      isSaving := true;
      pending := Some(SaveRecord(currentUser.value, schemaName, nodes, edges, now));
      return true;
    }

    /** The second half of `autoSave`, after the realtime write and then the
        document write have completed. Only when both succeeded is the saved
        graph pushed onto the history; the flag is lowered either way. */
    method FinishSave(realtimeOk: bool, documentOk: bool) returns (report: SaveReport)
      requires Valid() && isSaving
      modifies this`isSaving, this`pending, history
      ensures Valid() && !isSaving
      ensures var rec := old(pending.value);
              && report == (if realtimeOk && documentOk then Saved(rec) else Failed(rec, realtimeOk))
              && (realtimeOk && documentOk ==>
                    && history.history == old(history.history[..history.currentIndex + 1])
                                          + [Snapshot(rec.nodes.items, rec.edges.items)]
                    && history.currentIndex == |history.history| - 1)
              && (!(realtimeOk && documentOk) ==>
                    history.history == old(history.history) && history.currentIndex == old(history.currentIndex))
    {
      var rec := pending.value;
      if realtimeOk && documentOk {
        history.PushState(rec.nodes.items, rec.edges.items);
        report := Saved(rec);
      } else {
        report := Failed(rec, realtimeOk);
      }
      isSaving := false;
      pending := None;
    }

    /** One whole `autoSave`: the guard, the writes, and history recorded only
        after both writes succeed. */
    method AutoSave(now: nat, realtimeOk: bool, documentOk: bool) returns (report: SaveReport)
      requires Valid()
      modifies this`isSaving, this`pending, history
      ensures Valid()
      ensures var guard := old(currentUser.Some? && currentSchemaId.Some? && currentSchemaId.value != "" && !isSaving);
              if !guard then
                && report == Skipped && isSaving == old(isSaving) && pending == old(pending)
                && history.history == old(history.history) && history.currentIndex == old(history.currentIndex)
              else
                var rec := SaveRecord(currentUser.value, schemaName, nodes, edges, now);
                && !isSaving
                && report == (if realtimeOk && documentOk then Saved(rec) else Failed(rec, realtimeOk))
                && (realtimeOk && documentOk ==>
                      && history.history == old(history.history[..history.currentIndex + 1])
                                            + [Snapshot(SanitizeNodes(nodes), SanitizeEdges(edges, now))]
                      && history.currentIndex == |history.history| - 1
                      && !history.CanRedo())
                && (!(realtimeOk && documentOk) ==>
                      history.history == old(history.history) && history.currentIndex == old(history.currentIndex))
    {
      var started := BeginSave(now);
      if !started {
        return Skipped;
      }
      report := FinishSave(realtimeOk, documentOk);
    }

    /** `handleTableNameChange`: relabels the nodes with the given id. */
    method HandleTableNameChange(nodeId: string, newName: string)
      modifies this`nodes
      ensures nodes == Relabel(old(nodes), nodeId, Str(newName))
    {
      nodes := Relabel(nodes, nodeId, Str(newName));
    }

    /** `handleAddNewTable`: appends a new table; the position is the random
        point the caller drew. */
    method HandleAddNewTable(at: Position)
      modifies this`nodes
      ensures nodes == old(nodes) + [NewTableNode(|old(nodes)|, at)]
    {
      nodes := nodes + [NewTableNode(|nodes|, at)];
    }

    /** The node update of `onConnect`. */
    method OnConnect(source: string, target: string)
      modifies this`nodes
      ensures nodes == ConnectRecolor(old(nodes), source, target)
    {
      nodes := ConnectRecolor(nodes, source, target);
    }

    /** `handleUndo`: steps the history back and shows the snapshot. */
    method HandleUndo()
      requires Valid()
      modifies this`nodes, this`edges, history`currentIndex
      ensures Valid()
      ensures history.currentIndex == if old(history.currentIndex) > 0 then old(history.currentIndex) - 1 else 0
      ensures Snapshot(nodes, edges) == history.history[history.currentIndex]
    {
      var s := history.Undo();
      nodes, edges := s.nodes, s.edges;
    }

    /** `handleRedo`: steps the history forward and shows the snapshot. */
    method HandleRedo()
      requires Valid()
      modifies this`nodes, this`edges, history`currentIndex
      ensures Valid()
      ensures history.currentIndex == if old(history.CanRedo()) then old(history.currentIndex) + 1
                                      else old(history.currentIndex)
      ensures Snapshot(nodes, edges) == history.history[history.currentIndex]
    {
      var s := history.Redo();
      nodes, edges := s.nodes, s.edges;
    }
  }

  /** A failed save leaves the history exactly as it was, and the next save
      attempt is not blocked by it. */
  method FailedSaveKeepsHistory(uid: string, id: string, data: SchemaRecord, now: nat)
    returns (lengthBefore: nat, lengthAfter: nat, indexBefore: nat, indexAfter: nat, retried: SaveReport)
    requires id != ""
    ensures lengthAfter == lengthBefore && indexAfter == indexBefore
    ensures retried.Saved?
  {
    var e := new Editor(Some(uid));
    var _ := e.LoadSchema(Some(id), Some(data), None, now);
    lengthBefore, indexBefore := |e.history.history|, e.history.currentIndex;
    var failed := e.AutoSave(now, true, false);
    lengthAfter, indexAfter := |e.history.history|, e.history.currentIndex;
    retried := e.AutoSave(now + 1, true, true);
  }

  /** While a save is in flight, a second trigger is skipped and changes
      nothing. */
  method OverlappingSaveSkipped(uid: string, id: string, data: SchemaRecord, now: nat)
    returns (first: bool, second: SaveReport, firstReport: SaveReport)
    requires id != ""
    ensures first && second == Skipped && firstReport.Saved?
  {
    var e := new Editor(Some(uid));
    var _ := e.LoadSchema(Some(id), Some(data), None, now);
    first := e.BeginSave(now);
    second := e.AutoSave(now + 1, true, true);
    firstReport := e.FinishSave(true, true);
  }

  /** The history starts from the graph of the first render, which is empty;
      so after a loaded schema is saved once, undo shows an empty canvas. */
  method UndoAfterFirstSave(uid: string, id: string, data: SchemaRecord, now: nat)
    returns (nodes: seq<Node>, edges: seq<Edge>)
    requires id != ""
    ensures nodes == [] && edges == []
  {
    var e := new Editor(Some(uid));
    var _ := e.LoadSchema(Some(id), Some(data), None, now);
    var _ := e.AutoSave(now, true, true);
    e.HandleUndo();
    nodes, edges := e.nodes, e.edges;
  }
}
