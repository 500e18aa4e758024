/**
 * The schema graph as the editor holds it: table and colour-chooser nodes,
 * their columns, the edges between them, history snapshots, and the schema
 * record that is written to and read from the backend. Fields are loosely typed
 * `Value`s because the code defends against missing and ill-typed fields.
 */
module Graph {
  import opened JsValues

  /** One column of a table node. */
  datatype Column = Column(
    name: Value,
    colType: Value,
    isPrimary: Value,
    isForeignKey: Value,
    referencedTable: Value)

  datatype Position = Position(x: real, y: real)

  /** A node's `style` object: absent, or present with a background colour
      and other style properties. */
  datatype Style = NoStyle | StyleObj(backgroundColor: Value, props: map<string, Value>)

  /** A node's `data` object (`title` is its `label` field, a word Dafny
      reserves). `props` holds every other plain field. */
  datatype NodeData = NodeData(
    title: Value,
    color: Value,
    columns: MaybeArray<Column>,
    borderColor: Value,
    props: map<string, Value>)

  /** A node. `kind` is the React Flow node type (`'tableNode'`,
      `'colorChooser'`); `props` holds the other top-level fields. */
  datatype Node = Node(
    id: string,
    kind: Value,
    position: Position,
    data: NodeData,
    style: Style,
    props: map<string, Value>)

  /** An edge. `style` is absent or an object of style properties; `props`
      holds the other top-level fields. */
  datatype Edge = Edge(
    id: Value,
    source: string,
    target: string,
    sourceHandle: Value,
    targetHandle: Value,
    kind: Value,
    animated: Value,
    style: Option<map<string, Value>>,
    props: map<string, Value>)

  /** One entry of an undo history. */
  datatype Snapshot = Snapshot(nodes: seq<Node>, edges: seq<Edge>)

  /** A schema document as stored in the backend. `lastModified` is an abstract
      timestamp; an absent `collaborators` key is `NotArr(Undefined)`. */
  datatype SchemaRecord = SchemaRecord(
    userId: string,
    name: Value,
    nodes: MaybeArray<Node>,
    edges: MaybeArray<Edge>,
    lastModified: int,
    lastModifiedBy: string,
    collaborators: MaybeArray<string>)

  /** A schema document together with its document id. */
  datatype StoredSchema = StoredSchema(id: string, record: SchemaRecord)

  const TableKind: Value := Str("tableNode")
  const ColorKind: Value := Str("colorChooser")
  const UntitledSchema: Value := Str("Untitled Schema")

  /** `nodes.find(n => n.id === id)`: the first node with that id, if any. */
  function FindNode(nodes: seq<Node>, id: string): (r: Option<Node>)
    ensures r.None? <==> forall k :: 0 <= k < |nodes| ==> nodes[k].id != id
    ensures r.Some? ==> exists k :: 0 <= k < |nodes| && nodes[k] == r.value
                          && forall j :: 0 <= j < k ==> nodes[j].id != id
    ensures r.Some? ==> r.value.id == id
  {
    if nodes == [] then None
    else if nodes[0].id == id then Some(nodes[0])
    else
      var r := FindNode(nodes[1..], id);
      assert r.Some? ==> exists k :: 0 <= k < |nodes| && nodes[k] == r.value
                          && forall j :: 0 <= j < k ==> nodes[j].id != id by {
        if r.Some? {
          var k :| 0 <= k < |nodes[1..]| && nodes[1..][k] == r.value
                   && forall j :: 0 <= j < k ==> nodes[1..][j].id != id;
          assert nodes[k + 1] == r.value;
          forall j | 0 <= j < k + 1 ensures nodes[j].id != id {
            if j > 0 { assert nodes[j] == nodes[1..][j - 1]; }
          }
        }
      }
      r
  }

  /** The node list after `{ ...node, data: { ...node.data, label } }` is
      applied to every node whose id is `id`: only those nodes' labels change. */
  function Relabel(nodes: seq<Node>, id: string, newTitle: Value): (r: seq<Node>)
    ensures |r| == |nodes|
    ensures forall k :: 0 <= k < |nodes| && nodes[k].id != id ==> r[k] == nodes[k]
    ensures forall k :: 0 <= k < |nodes| && nodes[k].id == id ==>
              r[k].data.title == newTitle
              && r[k].(data := r[k].data.(title := nodes[k].data.title)) == nodes[k]
  {
    seq(|nodes|, k requires 0 <= k < |nodes| =>
      if nodes[k].id == id then nodes[k].(data := nodes[k].data.(title := newTitle))
      else nodes[k])
  }

  /** `nodes.filter(node => node.id !== id)`. */
  function WithoutNode(nodes: seq<Node>, id: string): (r: seq<Node>)
    ensures forall n :: n in r <==> n in nodes && n.id != id
    ensures forall k :: 0 <= k < |r| ==> r[k].id != id
  {
    Filter(nodes, (n: Node) => n.id != id)
  }

  /** `edges.filter(edge => edge.source !== id && edge.target !== id)`. */
  function WithoutIncident(edges: seq<Edge>, id: string): (r: seq<Edge>)
    ensures forall e :: e in r <==> e in edges && e.source != id && e.target != id
    ensures forall k :: 0 <= k < |r| ==> r[k].source != id && r[k].target != id
  {
    Filter(edges, (e: Edge) => e.source != id && e.target != id)
  }
}
