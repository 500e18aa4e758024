/**
 * The save-time sanitizer of the schema builder: a field-by-field defaulting
 * pass over nodes, their columns, and edges, applied before a save and before
 * the saved graph enters the undo history.
 */
module Sanitizer {
  import opened JsValues
  import opened Graph

  const DefaultColor: Value := Str("#4D55CC")
  const DefaultBackground: Value := Str("#ffffff")

  /** The column given to a table node whose `columns` is not an array. */
  const DefaultColumn: Column := Column(Str("id"), Str("integer"), Bool(true), Bool(false), Null)

  /** The stroke of an edge that has no style. */
  const DefaultEdgeStyle: map<string, Value> := map["stroke" := DefaultColor]

  // ---------------------------------------------------------------------------
  // The canonical (sanitized) form, stated independently of the pass.

  predicate FalsyIs(v: Value, d: Value) {
    Truthy(v) || v == d
  }

  /** A sanitized column: a truthy type, boolean flags, and a name or
      referenced table that is either truthy or exactly its default. */
  predicate CanonicalColumn(c: Column) {
    && FalsyIs(c.name, Str(""))
    && Truthy(c.colType)
    && c.isPrimary.Bool? && c.isForeignKey.Bool?
    && FalsyIs(c.referencedTable, Null)
  }

  /** A sanitized node: truthy label and colour; a table has an array of
      canonical columns and a style with a truthy background; any other node
      has no columns. */
  predicate CanonicalNode(n: Node) {
    && Truthy(n.data.title) && Truthy(n.data.color)
    && n.data.columns.Arr?
    && (n.kind == TableKind ==>
          && (forall k :: 0 <= k < |n.data.columns.items| ==> CanonicalColumn(n.data.columns.items[k]))
          && n.style.StyleObj? && Truthy(n.style.backgroundColor))
    && (n.kind != TableKind ==> n.data.columns.items == [])
  }

  /** A sanitized edge: a truthy id and type, handles that are truthy or null,
      `animated` truthy or `false`, a style object, and no other field. */
  predicate CanonicalEdge(e: Edge) {
    && Truthy(e.id) && Truthy(e.kind)
    && FalsyIs(e.sourceHandle, Null) && FalsyIs(e.targetHandle, Null)
    && FalsyIs(e.animated, Bool(false))
    && e.style.Some?
    && e.props == map[]
  }

  // ---------------------------------------------------------------------------
  // The pass itself.

  /** One column through the field defaults of the pass; only the five
      column fields survive. */
  function SanitizeColumn(c: Column): (r: Column)
    ensures CanonicalColumn(r)
    ensures r.name == Or(c.name, Str("")) && r.colType == Or(c.colType, Str("varchar"))
    ensures Truthy(r.isPrimary) == Truthy(c.isPrimary)
    ensures Truthy(r.isForeignKey) == Truthy(c.isForeignKey)
    ensures r.referencedTable == Or(c.referencedTable, Null)
  {
    Column(Or(c.name, Str("")), Or(c.colType, Str("varchar")), ToBool(c.isPrimary),
           ToBool(c.isForeignKey), Or(c.referencedTable, Null))
  }

  /** The `columns` field of a sanitized node. */
  function SanitizeColumns(kind: Value, columns: MaybeArray<Column>): (r: MaybeArray<Column>)
    ensures r.Arr?
    ensures kind != TableKind ==> r.items == []
    ensures kind == TableKind && columns.NotArr? ==> r.items == [DefaultColumn]
    ensures kind == TableKind && columns.Arr? ==>
              |r.items| == |columns.items|
              && forall k :: 0 <= k < |columns.items| ==> r.items[k] == SanitizeColumn(columns.items[k])
  {
    if kind != TableKind then Arr([])
    else match columns
      case NotArr(_) => Arr([DefaultColumn])
      case Arr(cs) => Arr(seq(|cs|, k requires 0 <= k < |cs| => SanitizeColumn(cs[k])))
  }

  /** The `style` field of a sanitized node: untouched on a node that is not a
      table; on a table, a style object whose other properties are kept and
      whose background is kept when truthy and otherwise `#ffffff`. */
  function SanitizeStyle(kind: Value, style: Style): (r: Style)
    ensures kind != TableKind ==> r == style
    ensures kind == TableKind ==> r.StyleObj? && Truthy(r.backgroundColor)
    ensures kind == TableKind ==> r.props == (if style.StyleObj? then style.props else map[])
    ensures kind == TableKind && style.StyleObj? && Truthy(style.backgroundColor) ==>
              r.backgroundColor == style.backgroundColor
    ensures kind == TableKind && !(style.StyleObj? && Truthy(style.backgroundColor)) ==>
              r.backgroundColor == DefaultBackground
  {
    if kind != TableKind then style
    else match style
      case NoStyle => StyleObj(DefaultBackground, map[])
      case StyleObj(bg, props) => StyleObj(Or(bg, DefaultBackground), props)
  }

  /** One node through the pass. The result is canonical; id, type, position,
      the other top-level fields and the other `data` fields (including
      `borderColor`) are kept; a truthy label and colour are kept and falsy
      ones replaced by their defaults; a table's style keeps its other
      properties and gets a background if it has none; any other node's style
      is untouched. */
  function SanitizeNode(n: Node): (r: Node)
    ensures CanonicalNode(r)
    ensures r.id == n.id && r.kind == n.kind && r.position == n.position && r.props == n.props
    ensures r.data.props == n.data.props && r.data.borderColor == n.data.borderColor
    ensures r.data.title == Or(n.data.title, Str("Untitled"))
    ensures r.data.color == Or(n.data.color, DefaultColor)
    ensures r.data.columns == SanitizeColumns(n.kind, n.data.columns)
    ensures n.kind != TableKind ==> r.style == n.style
    ensures n.kind == TableKind ==>
              r.style.StyleObj?
              && r.style.props == (if n.style.StyleObj? then n.style.props else map[])
              && (n.style.StyleObj? && Truthy(n.style.backgroundColor) ==>
                    r.style.backgroundColor == n.style.backgroundColor)
              && (!(n.style.StyleObj? && Truthy(n.style.backgroundColor)) ==>
                    r.style.backgroundColor == DefaultBackground)
  {
    n.(data := n.data.(title := Or(n.data.title, Str("Untitled")),
                       color := Or(n.data.color, DefaultColor),
                       columns := SanitizeColumns(n.kind, n.data.columns)),
       style := SanitizeStyle(n.kind, n.style))
  }

  /** The id given to an edge whose id is falsy: `edge-` followed by the
      decimal digits of the clock reading. */
  function ClockEdgeId(now: nat): (r: Value)
    ensures r.Str? && |r.s| > 5 && r.s[..5] == "edge-"
    ensures forall k :: 5 <= k < |r.s| ==> IsDigit(r.s[k])
    ensures DigitsValue(r.s[5..]) == now
  {
    var d := NatToString(now);
    assert ("edge-" + d)[5..] == d;
    Str("edge-" + d)
  }

  /** Different clock readings give different edge ids. */
  lemma ClockEdgeIdsDiffer(now1: nat, now2: nat)
    requires now1 != now2
    ensures ClockEdgeId(now1) != ClockEdgeId(now2)
  {
  }

  /** One edge through the pass: `now` is the clock reading used for a
      missing id. Endpoints are kept, truthy fields are kept, falsy ones get
      their defaults, and no other field survives. */
  function SanitizeEdge(e: Edge, now: nat): (r: Edge)
    ensures CanonicalEdge(r)
    ensures r.source == e.source && r.target == e.target
    ensures r.id == Or(e.id, ClockEdgeId(now))
    ensures r.sourceHandle == Or(e.sourceHandle, Null) && r.targetHandle == Or(e.targetHandle, Null)
    ensures r.kind == Or(e.kind, Str("default")) && r.animated == Or(e.animated, Bool(false))
    ensures r.style == if e.style.Some? then e.style else Some(DefaultEdgeStyle)
    ensures r.props == map[]
  {
    Edge(Or(e.id, ClockEdgeId(now)), e.source, e.target,
         Or(e.sourceHandle, Null), Or(e.targetHandle, Null),
         Or(e.kind, Str("default")), Or(e.animated, Bool(false)),
         if e.style.Some? then e.style else Some(DefaultEdgeStyle),
         map[])
  }

  /** `nodes.map(...)`: one sanitized node per node, in order. */
  function SanitizeNodes(nodes: seq<Node>): (r: seq<Node>)
    ensures |r| == |nodes|
    ensures forall k :: 0 <= k < |nodes| ==> r[k] == SanitizeNode(nodes[k])
  {
    seq(|nodes|, k requires 0 <= k < |nodes| => SanitizeNode(nodes[k]))
  }

  /** `edges.map(...)`: one sanitized edge per edge, in order. */
  function SanitizeEdges(edges: seq<Edge>, now: nat): (r: seq<Edge>)
    ensures |r| == |edges|
    ensures forall k :: 0 <= k < |edges| ==> r[k] == SanitizeEdge(edges[k], now)
  {
    seq(|edges|, k requires 0 <= k < |edges| => SanitizeEdge(edges[k], now))
  }

  // ---------------------------------------------------------------------------
  // The canonical form is exactly the set of fixed points of the pass.

  lemma ColumnFixedPoint(c: Column)
    ensures CanonicalColumn(c) <==> SanitizeColumn(c) == c
  {
  }

  lemma {:induction false} NodeFixedPoint(n: Node)
    ensures CanonicalNode(n) <==> SanitizeNode(n) == n
  {
    if CanonicalNode(n) && n.kind == TableKind {
      var cs := n.data.columns.items;
      forall k | 0 <= k < |cs| ensures SanitizeColumn(cs[k]) == cs[k] {
        ColumnFixedPoint(cs[k]);
      }
      assert SanitizeColumns(n.kind, n.data.columns).items == cs;
    }
  }

  lemma EdgeFixedPoint(e: Edge, now: nat)
    ensures CanonicalEdge(e) <==> SanitizeEdge(e, now) == e
  {
  }

  /** Sanitizing an already sanitized graph changes nothing, whatever the
      clock reads on the second pass: every edge already carries an id. */
  lemma {:induction false} SanitizeIdempotent(nodes: seq<Node>, edges: seq<Edge>, now1: nat, now2: nat)
    ensures SanitizeNodes(SanitizeNodes(nodes)) == SanitizeNodes(nodes)
    ensures SanitizeEdges(SanitizeEdges(edges, now1), now2) == SanitizeEdges(edges, now1)
  {
    var ns := SanitizeNodes(nodes);
    forall k | 0 <= k < |ns| ensures SanitizeNode(ns[k]) == ns[k] {
      NodeFixedPoint(ns[k]);
    }
    var es := SanitizeEdges(edges, now1);
    forall k | 0 <= k < |es| ensures SanitizeEdge(es[k], now2) == es[k] {
      EdgeFixedPoint(es[k], now2);
    }
  }

  /** A table node whose `columns` is an empty array keeps it empty: only a
      value that is not an array is replaced by the default column. */
  lemma EmptyColumnsStayEmpty(n: Node)
    requires n.kind == TableKind && n.data.columns == Arr([])
    ensures SanitizeNode(n).data.columns == Arr([])
  {
  }

  /** A column that is not a foreign key keeps its truthy `referencedTable`. */
  lemma ReferenceKeptWithoutForeignKey(c: Column)
    requires !Truthy(c.isForeignKey) && Truthy(c.referencedTable)
    ensures SanitizeColumn(c).isForeignKey == Bool(false)
    ensures SanitizeColumn(c).referencedTable == c.referencedTable
  {
  }

  /** Two edges without ids sanitized in the same clock tick get the same id. */
  lemma MissingIdsCollide(e1: Edge, e2: Edge, now: nat)
    requires !Truthy(e1.id) && !Truthy(e2.id)
    ensures SanitizeEdge(e1, now).id == SanitizeEdge(e2, now).id
  {
  }
}
