# SQLBUILDER schema designer: a verified model of its core

SQLBUILDER is a browser-based database-schema designer. The user places
table nodes and colour-chooser nodes on a canvas, links them with edges, and
edits each table's columns in place. The graph is autosaved to a realtime
store and a document store, kept in an undo/redo history, and exported as SQL
DDL or as a JSON document. A dashboard summarises the user's schemas.

This project models that core in Dafny and proves properties of it:

- `JsValues`, `JsStrings`: the JavaScript value semantics the code relies on:
  - truthiness and the `||` default;
  - `Array.isArray` guards and `?.length || 0`;
  - template-literal rendering;
  - `slice`/`splice` index clamping, `filter`, `trim` and ASCII `toUpperCase`.
- `Graph`: nodes, columns, edges, history snapshots and schema records, with
  the node lookup and the relabel, delete-node and delete-incident-edge list
  transformations.
- `UndoRedo`: the `useUndoRedo` hook as a class `History` whose snapshot list
  and index are updated in place.
- `SchemaSlice`: the Redux `schema` slice as a class `SchemaStore`. There is
  one method per reducer, and each changes only the fields that reducer assigns.
- `Sanitizer`: the save-time defaulting pass over nodes, columns and edges,
  together with a canonical form that is exactly the set of fixed points of
  the pass.
- `SchemaBuilder`, which covers:
  - the builder screen as a class `Editor`;
  - the load coercion and copy-back;
  - the autosave guard and sequence, split into `BeginSave` and `FinishSave`
    at the awaited writes;
  - rename, add table, colour-linking `onConnect`, and undo/redo;
  - the newest-first ordering of the user's schema list.
- `SchemaExport`:
  - `generateSQL`, as a two-pass method proved against a reference function;
  - the value of the `generateJSON` document;
  - when export succeeds;
  - a corrected export that skips non-table nodes (see Findings).
- `TableNode`: the table node's own handlers as a class `TableNodeView`
  (rename, add column, delete column by index) and the 12 column types.
- `Dashboard`, which covers:
  - the statistics fold;
  - the live-collaborator filter;
  - the activity series;
  - the new-schema record and store reset;
  - the edit-schema defaults.

External inputs are parameters, and none are transitions of the model:

- the clock (`now`);
- the random position of a new table;
- the outcome of each backend write;
- the contents of backend snapshots.

### Behaviour worth knowing

- A table node whose `columns` is an empty array keeps it empty on save. Only
  a value that is not an array is replaced by the default `id` column
  (`Sanitizer.EmptyColumnsStayEmpty`).
- The sanitizer spreads `...node` and `...node.data`, so the other node and
  `data` fields survive a save, `borderColor` among them (`Sanitizer.SanitizeNode`).
- `referencedTable` is kept when `isForeignKey` is false. It is only
  defaulted to `null` when falsy (`Sanitizer.ReferenceKeptWithoutForeignKey`).
- The undo history starts from the empty graph of the first render. The
  first undo after the first save therefore shows an empty canvas
  (`SchemaBuilder.UndoAfterFirstSave`).
- Two edges without ids sanitized at the same clock reading get the same id
  (`Sanitizer.MissingIdsCollide`).
- A new table's id comes from the node count, so after a deletion it can
  repeat an id still on the canvas (`SchemaBuilder.NewTableIdReused`; see
  Findings).

## Model

| member | source | states |
|---|---|---|
| JsValues.NatToString | src/components/schema/SchemaBuilder.js:237 | the decimal text of the node count: non-empty digits whose value is the number, no leading zero, one character exactly below ten |
| JsValues.ArrayOr | src/store/schemaSlice.js:19 | `Array.isArray(x) ? x : []`: an array is kept, anything else becomes empty |
| JsValues.SliceTo | src/store/schemaSlice.js:34 | `slice(0, end)` with JavaScript clamping: a negative end counts from the back, and the result is a prefix |
| JsValues.SpliceOne | src/components/schema/TableNode.js:60-61 | `splice(index, 1)`: removes the element at the start (a negative start counts from the back, and one reaching past the front removes the first element), or nothing when the start is past the end |
| JsValues.Filter | src/store/schemaSlice.js:60-63 | the kept elements are exactly the input elements satisfying the predicate, never more of them than the input |
| JsValues.FilterConcat | src/store/schemaSlice.js:60-63 | filtering distributes over concatenation |
| JsValues.FilterKeepsAll | src/components/dashboard/Dashboard.js:136-138 | a filter whose predicate holds everywhere returns its input |
| JsStrings.TrimStart | src/components/schema/TableNode.js:40-42 | a suffix of the input whose dropped characters are all JavaScript white space, and which does not itself start with white space |
| JsStrings.TrimEnd | src/components/schema/TableNode.js:40-42 | a prefix of the input whose dropped characters are all JavaScript white space, and which does not itself end with white space |
| JsStrings.Trim | src/components/schema/TableNode.js:40-42 | the slice of the input between an all-white-space prefix (the characters `TrimStart` drops) and an all-white-space suffix; empty exactly when the input is all white space, and otherwise neither starting nor ending with white space |
| JsStrings.TrimIdempotent | src/components/schema/TableNode.js:40-42 | trimming a trimmed name changes nothing |
| JsStrings.Upper | src/utils/schemaExport.js:8 | `toUpperCase` maps every character through the ASCII upper-case map and keeps the length |
| Graph.FindNode | src/utils/schemaExport.js:20-21 | `find` by id gives the first node with that id, and none exactly when no node has it |
| Graph.Relabel | src/store/schemaSlice.js:43-50 | nodes with the id get the new label and are otherwise unchanged; all other nodes are unchanged; the length is kept |
| Graph.WithoutNode | src/store/schemaSlice.js:60 | the survivors are exactly the nodes without the id |
| Graph.WithoutIncident | src/store/schemaSlice.js:61-63 | the surviving edges are exactly those neither starting nor ending at the id |
| UndoRedo.History.constructor | src/hooks/useUndoRedo.js:3-5 | one snapshot of the initial graph, index 0, nothing to undo or redo |
| UndoRedo.History.CanUndo | src/hooks/useUndoRedo.js:29 | when true there is an earlier snapshot to step back to; false only at the first snapshot |
| UndoRedo.History.CanRedo | src/hooks/useUndoRedo.js:30 | when true there is a later snapshot to step forward to; false only at the last snapshot |
| UndoRedo.History.PushState | src/hooks/useUndoRedo.js:7-11 | the redo branch is cut, the new snapshot is appended and becomes current, and there is then something to undo and nothing to redo |
| UndoRedo.History.Undo | src/hooks/useUndoRedo.js:13-19 | steps back unless at the first snapshot, and returns the snapshot then current |
| UndoRedo.History.Redo | src/hooks/useUndoRedo.js:21-27 | steps forward unless at the last snapshot, and returns the snapshot then current |
| UndoRedo.UndoRedoRoundTrip | src/hooks/useUndoRedo.js:7-30 | push then undo returns the earlier snapshot, and redo returns the pushed one; pushing after an undo discards the redo branch |
| UndoRedo.UndoRedoAtEnds | src/hooks/useUndoRedo.js:13-27 | undo at the start and redo at the end both leave the index and return the current snapshot |
| SchemaSlice.SchemaStore.constructor | src/store/schemaSlice.js:3-12 | the initial state: empty graph and collaborators, no id, the default name, an empty history with index -1, not saving |
| SchemaSlice.SchemaStore.SetNodes | src/store/schemaSlice.js:18-20 | stores an array payload, or the empty list for anything else |
| SchemaSlice.SchemaStore.SetEdges | src/store/schemaSlice.js:21-23 | stores an array payload, or the empty list for anything else |
| SchemaSlice.SchemaStore.SetCurrentSchemaId | src/store/schemaSlice.js:24-26 | stores the payload as is |
| SchemaSlice.SchemaStore.SetSchemaName | src/store/schemaSlice.js:27-29 | stores the payload as is, with no default |
| SchemaSlice.SchemaStore.SetCollaborators | src/store/schemaSlice.js:30-32 | stores an array payload, or the empty list for anything else |
| SchemaSlice.SchemaStore.AddHistoryState | src/store/schemaSlice.js:33-36 | keeps the history up to the index, appends the payload and advances the index; from an aligned state it stays aligned and the history is the old one plus the payload |
| SchemaSlice.SchemaStore.SetHistoryIndex | src/store/schemaSlice.js:37-39 | stores any index, with no bounds check |
| SchemaSlice.SchemaStore.SetIsSaving | src/store/schemaSlice.js:40-42 | stores the flag |
| SchemaSlice.SchemaStore.UpdateTableName | src/store/schemaSlice.js:43-50 | relabels the nodes with the id, and changes nothing else |
| SchemaSlice.SchemaStore.AddNewTable | src/store/schemaSlice.js:51-54 | appends the payload after the existing nodes, which keep their order |
| SchemaSlice.SchemaStore.DeleteTable | src/store/schemaSlice.js:55-64 | removes the node and every edge touching it, so that no remaining edge mentions the id |
| SchemaSlice.ReplayHistory | src/store/schemaSlice.js:33-36 | from the initial state, any run of `addHistoryState` gives exactly the payloads in order, with the index on the last |
| SchemaSlice.MisalignedAdd | src/store/schemaSlice.js:34-39 | after `setHistoryIndex(-3)` on three entries, the next add keeps only the first entry and leaves index -2 |
| Sanitizer.SanitizeColumn | src/components/schema/SchemaBuilder.js:158-164 | the column is canonical; name and type take their defaults only when falsy; the flags become booleans of the same truthiness; a falsy reference becomes null |
| Sanitizer.SanitizeColumns | src/components/schema/SchemaBuilder.js:156-173 | a non-table gets no columns; a table with non-array columns gets the single default `id` column; otherwise every column is sanitized, in order |
| Sanitizer.SanitizeStyle | src/components/schema/SchemaBuilder.js:175-177 | a non-table keeps its style; a table gets a style object with its other properties, its truthy background kept and a falsy or missing one replaced by `#ffffff` |
| Sanitizer.SanitizeNode | src/components/schema/SchemaBuilder.js:150-178 | the node is canonical; id, type, position, other fields, other data fields and `borderColor` are kept; a table keeps a truthy background and otherwise gets `#ffffff`, and keeps its other style properties |
| Sanitizer.SanitizeEdge | src/components/schema/SchemaBuilder.js:181-190 | the edge is canonical; endpoints are kept; a missing id becomes `edge-<now>`; other falsy fields get their defaults; extra fields are dropped |
| Sanitizer.SanitizeNodes | src/components/schema/SchemaBuilder.js:150 | one sanitized node per node, in order |
| Sanitizer.ClockEdgeId | src/components/schema/SchemaBuilder.js:182 | `edge-` followed by decimal digits whose value is the clock reading |
| Sanitizer.SanitizeEdges | src/components/schema/SchemaBuilder.js:181 | one sanitized edge per edge, in order |
| Sanitizer.ColumnFixedPoint | src/components/schema/SchemaBuilder.js:158-164 | a column is canonical exactly when the pass leaves it unchanged |
| Sanitizer.NodeFixedPoint | src/components/schema/SchemaBuilder.js:150-178 | a node is canonical exactly when the pass leaves it unchanged |
| Sanitizer.EdgeFixedPoint | src/components/schema/SchemaBuilder.js:181-190 | an edge is canonical exactly when the pass leaves it unchanged |
| Sanitizer.SanitizeIdempotent | src/components/schema/SchemaBuilder.js:150-190 | sanitizing a sanitized graph again changes nothing, whatever the clock reads the second time |
| Sanitizer.EmptyColumnsStayEmpty | src/components/schema/SchemaBuilder.js:157-158 | a table with an empty column array keeps it empty |
| Sanitizer.ReferenceKeptWithoutForeignKey | src/components/schema/SchemaBuilder.js:162-163 | a non-foreign-key column keeps a truthy referenced table |
| Sanitizer.MissingIdsCollide | src/components/schema/SchemaBuilder.js:182 | two id-less edges sanitized in the same tick get the same id |
| SchemaBuilder.NewTableColumnsCanonical | src/components/schema/SchemaBuilder.js:235-262 | a new table's columns are already sanitized; a save only adds the default colour and background |
| SchemaBuilder.NewTableNode | src/components/schema/SchemaBuilder.js:236-262 | a table at the given position with no style, id `table-` followed by digits whose value is the count plus one, label `Table ` followed by the same digits, no colour or border colour, and exactly the columns `id` (`integer`, primary key) and `created_at` (`timestamp`), both without foreign key or referenced table |
| SchemaBuilder.SaveRecord | src/components/schema/SchemaBuilder.js:192-199 | written by and for the current user at the clock reading; the given name when truthy, otherwise `Untitled Schema`; each node is that node through `SanitizeNode` and each edge that edge through `SanitizeEdge` (canonical, ids and endpoints kept); no collaborator list |
| SchemaBuilder.NewTableIdReused | src/components/schema/SchemaBuilder.js:237 | after a table is deleted, the next new table reuses the id of a table still on the canvas |
| SchemaBuilder.MaxTableNumber | src/components/schema/SchemaBuilder.js:237 | bounds every `table-<digits>` number on the canvas and is one of them, or 0 |
| SchemaBuilder.FreshTableNode | src/components/schema/SchemaBuilder.js:235-262 | the corrected new table: its id is held by no node on the canvas, and it is the node the handler builds whenever no table number exceeds the node count |
| SchemaBuilder.ConnectRecolor | src/components/schema/SchemaBuilder.js:310-328 | when a colour chooser is linked to a table, the target's border colour becomes the chooser's colour and nothing else changes; otherwise the nodes are unchanged |
| SchemaBuilder.ConsDescending | src/components/schema/SchemaBuilder.js:83 | putting a key no smaller than the head's in front keeps newest-first order |
| SchemaBuilder.InsertDescending | src/components/schema/SchemaBuilder.js:83 | inserting keeps newest-first order and adds exactly the one element |
| SchemaBuilder.SortDescending | src/components/schema/SchemaBuilder.js:83 | the result is in descending key order and is a permutation of the input |
| SchemaBuilder.SortByLastModified | src/components/schema/SchemaBuilder.js:78-83 | the same schemas, newest modification first |
| SchemaBuilder.Editor.constructor | src/components/schema/SchemaBuilder.js:50-66 | empty canvas, default name, no id, not saving, and a history holding only the empty graph |
| SchemaBuilder.Editor.LoadSchema | src/components/schema/SchemaBuilder.js:96-139 | no user, no id or no stored copy changes nothing; otherwise the graph is array-coerced and the name defaulted; the realtime copy wins, and a document-only copy is written back with the clock and the user |
| SchemaBuilder.Editor.BeginSave | src/components/schema/SchemaBuilder.js:144-199 | starts exactly when there is a user, a non-empty schema id and no save in flight; it then fixes the sanitized record |
| SchemaBuilder.Editor.FinishSave | src/components/schema/SchemaBuilder.js:201-218 | the saved graph is pushed onto the history only when both writes succeeded; the flag is lowered either way |
| SchemaBuilder.Editor.AutoSave | src/components/schema/SchemaBuilder.js:143-219 | a guarded save (no user, a missing or empty schema id, or a save in flight) is skipped and changes nothing; otherwise the history grows by the sanitized graph exactly when both writes succeed, and is untouched when one fails |
| SchemaBuilder.Editor.HandleTableNameChange | src/components/schema/SchemaBuilder.js:225-233 | relabels the nodes with the id |
| SchemaBuilder.Editor.HandleAddNewTable | src/components/schema/SchemaBuilder.js:235-265 | appends the new table numbered after the current node count |
| SchemaBuilder.Editor.OnConnect | src/components/schema/SchemaBuilder.js:310-328 | the node list becomes the recoloured list |
| SchemaBuilder.Editor.HandleUndo | src/components/schema/SchemaBuilder.js:345-351 | steps the history back and shows exactly the snapshot then current |
| SchemaBuilder.Editor.HandleRedo | src/components/schema/SchemaBuilder.js:353-359 | steps the history forward and shows exactly the snapshot then current |
| SchemaBuilder.FailedSaveKeepsHistory | src/components/schema/SchemaBuilder.js:201-218 | a failed write leaves the history's length and index as they were, and does not block the next save |
| SchemaBuilder.OverlappingSaveSkipped | src/components/schema/SchemaBuilder.js:144 | a save triggered while another is in flight is skipped |
| SchemaBuilder.UndoAfterFirstSave | src/components/schema/SchemaBuilder.js:66 | after loading and saving once, undo shows the empty initial graph |
| SchemaExport.FirstForeignKey | src/utils/schemaExport.js:23 | the first foreign-key column if any; none exactly when no column is a foreign key |
| SchemaExport.ColumnLine | src/utils/schemaExport.js:8-12 | a column line fails exactly when the column type is not a string (`toUpperCase` throws), naming the node |
| SchemaExport.ColumnLines | src/utils/schemaExport.js:7-14 | one line per column, or the column-type failure of the node |
| SchemaExport.CreateBlock | src/utils/schemaExport.js:6-15 | a node whose `columns` is not an array fails (`.map` throws), and every failure names the node |
| SchemaExport.CreateBlocks | src/utils/schemaExport.js:5-16 | a failure of the first pass names one of the nodes |
| SchemaExport.AlterStatement | src/utils/schemaExport.js:20-27 | an edge whose source or target is missing adds nothing; it fails only when the source node's `columns` is not an array; it adds text only when both nodes exist and the source has a foreign-key column |
| SchemaExport.AlterStatements | src/utils/schemaExport.js:19-29 | a failure of the second pass is always a source node whose `columns` is not an array |
| SchemaExport.Sql | src/utils/schemaExport.js:1-32 | succeeds exactly when both passes do; the table definitions come first; a first-pass failure is the result |
| SchemaExport.CreateErrSticks | src/utils/schemaExport.js:5-16 | once a table fails to render, the first pass fails with that error |
| SchemaExport.AlterErrSticks | src/utils/schemaExport.js:19-29 | once an edge fails to render, the second pass fails with that error |
| SchemaExport.CreateStep | src/utils/schemaExport.js:5-16 | one more table appends its block, or stops the pass with its error |
| SchemaExport.AlterStep | src/utils/schemaExport.js:19-29 | one more edge appends its statement, or stops the pass with its error |
| SchemaExport.CreateTablesPass | src/utils/schemaExport.js:5-16 | the loop computes exactly the reference rendering of all tables |
| SchemaExport.ForeignKeysPass | src/utils/schemaExport.js:19-29 | the loop computes exactly the reference rendering of all foreign keys |
| SchemaExport.GenerateSQL | src/utils/schemaExport.js:1-32 | the result is the table blocks followed by the foreign-key statements, or the first error a thrown TypeError would report |
| SchemaExport.ColumnLinesOk | src/utils/schemaExport.js:7-13 | the columns render exactly when every type is a string, one line per column |
| SchemaExport.CreateBlocksOk | src/utils/schemaExport.js:5-16 | the first pass succeeds exactly when every node has an array of columns with string types |
| SchemaExport.AlterStatementsOk | src/utils/schemaExport.js:19-29 | when every node has an array of columns, the second pass cannot fail |
| SchemaExport.SqlOkIff | src/utils/schemaExport.js:1-32 | SQL export succeeds if and only if the canvas is exportable |
| SchemaExport.AlterSilent | src/utils/schemaExport.js:22-24 | a missing endpoint, or a source without a foreign-key column, contributes nothing |
| SchemaExport.UsersTableExample | src/utils/schemaExport.js:5-16 | a `users` table with a primary-key `id integer` and an `email varchar` renders as the expected CREATE TABLE block |
| SchemaExport.ForeignKeyExample | src/utils/schemaExport.js:19-29 | an edge from `orders` (foreign key `user_id`) to `users` renders the expected ALTER TABLE statement |
| SchemaExport.EndpointLabel | src/utils/schemaExport.js:47-48 | the endpoint's label, or undefined when no node has the id |
| SchemaExport.FirstWithoutColumns | src/utils/schemaExport.js:38 | the first node without an array of columns; none exactly when every node has one |
| SchemaExport.GenerateJson | src/utils/schemaExport.js:34-54 | succeeds exactly when every node has an array of columns, and otherwise names such a node; there is one table per node with its label and columns, and one many-to-one relationship per edge with the endpoint labels |
| SchemaExport.SqlOkThenJsonOk | src/utils/schemaExport.js:1-54 | whenever SQL export succeeds, so does JSON export, with the same table names |
| SchemaExport.ColourChooserBreaksExport | src/utils/schemaExport.js:5-16 | a canvas with a colour chooser from `handleAddColorChooser` makes both exports fail |
| SchemaExport.SanitizedColourChooserBecomesTable | src/utils/schemaExport.js:5-16 | a saved colour chooser is exported as an empty CREATE TABLE |
| SchemaExport.TablesOnly | src/components/schema/SchemaBuilder.js:44-47 | keeps exactly the table nodes |
| SchemaExport.SqlForTablesOkIff | src/utils/schemaExport.js:1-54 | the corrected SQL export succeeds exactly when the table nodes are exportable, and then the corrected JSON export succeeds too |
| SchemaExport.SqlForTablesAgrees | src/utils/schemaExport.js:1-54 | on a canvas of tables only, the corrected exports equal the originals |
| SchemaExport.ColourChooserSkipped | src/utils/schemaExport.js:5-16 | the corrected export of a table plus a colour chooser is the export of the table alone |
| TableNode.FormColumn | src/components/schema/TableNode.js:41-47 | the appended column has the trimmed name, the chosen type and flags, and a reference only when it is a foreign key |
| TableNode.TableNodeView.constructor | src/components/schema/TableNode.js:6-13 | the form starts empty with type `varchar`, and the header starts from the label |
| TableNode.TableNodeView.FillForm | src/components/schema/TableNode.js:141-202 | the form holds exactly what the user entered, and is shown |
| TableNode.TableNodeView.HandleTableNameChange | src/components/schema/TableNode.js:30-37 | header and label become the new name, and the pair is forwarded exactly when a callback exists |
| TableNode.TableNodeView.HandleAddColumn | src/components/schema/TableNode.js:39-57 | a blank name changes nothing; otherwise the form's column is appended and the form reset, keeping the chosen type |
| TableNode.TableNodeView.HandleDeleteColumn | src/components/schema/TableNode.js:59-63 | `splice(index, 1)`: for an index in range, exactly that column is removed and the others keep their order |
| TableNode.DataTypesDistinct | src/components/schema/TableNode.js:8-28 | twelve distinct types, and the initial choice is the first |
| TableNode.DeleteUndoesAppend | src/components/schema/TableNode.js:41-61 | deleting the index just past the old columns undoes an append |
| TableNode.AddThenDelete | src/components/schema/TableNode.js:39-63 | filling in the form and adding, then deleting the new column by index, gives back the original columns |
| TableNode.RenameForwards | src/components/schema/TableNode.js:30-37 | renaming sets the label and forwards `(id, name)` |
| Dashboard.ComputeStats | src/components/dashboard/Dashboard.js:80-99 | the loop's totals equal the reference sums, and shared schemas never exceed total schemas |
| Dashboard.StatsOf | src/components/dashboard/Dashboard.js:85-99 | one schema per document, and at most all of them shared |
| Dashboard.StatsZeroIff | src/components/dashboard/Dashboard.js:85-99 | each of the shared, table and relationship statistics is 0 exactly when no document contributes to it |
| Dashboard.IsShared | src/components/dashboard/Dashboard.js:89 | a document is shared exactly when its collaborator array (or string) is non-empty; an absent or other value is not |
| Dashboard.TablesBound | src/components/dashboard/Dashboard.js:87 | no document holds more tables than the sum `TablesIn`, which is 0 exactly when no document holds any |
| Dashboard.RelationshipsBound | src/components/dashboard/Dashboard.js:88 | no document holds more relationships than the sum `RelationshipsIn`, which is 0 exactly when no document holds any |
| Dashboard.SharedZeroIff | src/components/dashboard/Dashboard.js:89-91 | the shared count `SharedIn` is 0 exactly when no document is shared |
| Dashboard.SharedAtMostTotal | src/components/dashboard/Dashboard.js:89-96 | the shared count is at most the number of documents |
| Dashboard.SharedIsFilterLength | src/components/dashboard/Dashboard.js:89-91 | the shared count is the number of documents with collaborators |
| Dashboard.StatsAppend | src/components/dashboard/Dashboard.js:85-92 | every count is additive over two batches of documents |
| Dashboard.ActiveCollaborators | src/components/dashboard/Dashboard.js:133-141 | a falsy snapshot keeps the previous list; otherwise it gives exactly the users other than the current one |
| Dashboard.OnlyCurrentUserDropped | src/components/dashboard/Dashboard.js:136-138 | without the current user in the snapshot, all users are kept |
| Dashboard.Reverse | src/components/dashboard/Dashboard.js:207 | index k of the result is index length-1-k of the input |
| Dashboard.ShapeActivity | src/components/dashboard/Dashboard.js:203-207 | one point per document, oldest first, with a missing count shown as 0 |
| Dashboard.ReverseReverse | src/components/dashboard/Dashboard.js:207 | reversing twice gives the input back |
| Dashboard.ActivityCounts | src/components/dashboard/Dashboard.js:203-207 | every count is truthy or exactly 0, and the newest document is the last point |
| Dashboard.NewSchemaRecord | src/components/dashboard/Dashboard.js:238-246 | the new document: the user as owner and modifier, the default name, empty graph and collaborators, the clock reading |
| Dashboard.NewSchemaStats | src/components/dashboard/Dashboard.js:80-99 | a new schema adds one schema and nothing else to the statistics |
| Dashboard.OrEmpty | src/components/dashboard/Dashboard.js:268-269 | `x \|\| []`: a falsy non-array becomes empty, and anything else is kept |
| Dashboard.OrEmptyRedundant | src/components/dashboard/Dashboard.js:268-269 | the `\|\| []` default adds nothing once the reducer coerces non-arrays |
| Dashboard.EditSchema | src/components/dashboard/Dashboard.js:267-273 | the store holds the schema's array-coerced graph, its id, and its name or the default |
| Dashboard.CreateNewSchema | src/components/dashboard/Dashboard.js:235-265 | the record is written when the document is created; the store is reset only after both writes succeed, and otherwise it is untouched |
| Dashboard.CreateThenEdit | src/components/dashboard/Dashboard.js:235-273 | creating a schema and then opening it leaves an empty graph, the new id and the default name |

## Left out

- Backend reads and writes are not modelled as I/O. Both stores are left
  out: the realtime database and the document store. Snapshots are
  parameters and write outcomes are booleans or options. Each await is a
  split point (`BeginSave`/`FinishSave`).
- Timers are left out: the 2-second autosave debounce and its cancellation.
  React state batching, effect scheduling and stale closures are also not
  modelled; each handler sees the current state.
- Toasts, logging and navigation are left out because they produce no state
  the core reads.
- React Flow's `addEdge`, `onNodesChange` and `onEdgesChange` are library
  code that this model does not include. `OnConnect` models only the node
  recolouring.
- The random position of a new table is a parameter. Positions are reals and
  are never computed on.
- Zoom, grid and snap settings are left out: they are floating-point
  presentation state.
- Dates are left out. `new Date().toISOString()`, `Date.now()` and
  `toLocaleDateString` become one abstract integer clock reading. Activity
  points show the raw timestamp. The sort compares these integers, so
  invalid dates (`NaN`) are not modelled.
- SchemaBuilder.SortByLastModified: states order and permutation, not the
  stability of `Array.prototype.sort` among equal timestamps.
- `JSON.stringify` whitespace is left out. `GenerateJson` models the
  document value, not its text.
- `downloadFile`, clipboard and the export modal's UI are browser APIs.
- The callback fields stored in node data (`onColorChange`) are not
  modelled as values.
- The presentation-only files are not part of this model:
  - the landing, auth and dashboard markup;
  - the colour-chooser node component;
  - the schema dashboard list;
  - Tailwind configuration.
- Not modelled, because they are not part of the core described here:
  - `handleAddColorChooser`, except the node it creates, which the Findings
    use;
  - `handleDuplicateNode`;
  - schema deletion and renaming on the dashboard;
  - loading the collaborator list.
- The activity chart's `try`/`catch` fallback data is left out, since mapping
  the model's values cannot throw. The `limit(7)` and `limit(10)` query
  bounds are the backend's.
- The collaborator snapshot is modelled as the list `Object.values` returns,
  or `None` when it is falsy. Non-object snapshots are not modelled.
- Values are integers: `Value` has no floats or `NaN`. An absent key and a
  key holding `undefined` are the same.
- `JsStrings.Upper`: maps ASCII letters only, not the full Unicode
  `toUpperCase`.
- Sanitizer.SanitizeEdges: the clock is read once per pass, while the
  source calls `Date.now()` per edge. The readings can only differ across
  millisecond boundaries.
- TableNodeView: the handlers assign `data.label` and `data.columns` on the
  props object shared with the canvas. The class holds its own copy of
  those fields, so aliasing with the canvas's node list is not captured.
- UndoRedo.History.PushState: `[...nodes]` (useUndoRedo.js line 8) copies
  the list but not the node objects, so a stored snapshot shares its nodes
  with the live canvas. After an undo, the table node's in-place
  assignments to `data.label` and `data.columns` also change the stored
  history entries. The model stores snapshots as values, so this sharing is
  not captured.
- TableNodeView.constructor: requires an array of columns. The source's
  render (TableNode.js line 99) reads `data.columns.map` before any handler
  can run, so it throws first in the other case.
- The property "inputs are not mutated" holds by construction: every model
  function is on immutable values.

## Findings

| source | as written | input that shows it | evidently intended | confidence | as-written member | corrected member |
|---|---|---|---|---|---|---|
| src/utils/schemaExport.js:5-16 | `generateSQL` and `generateJSON` treat every node as a table and read `node.data.columns` | a canvas with a colour chooser added by `handleAddColorChooser` (no `columns`): both exports throw a TypeError; after a save gives it `columns: []`, SQL export emits `CREATE TABLE Color 2 (` with no columns | export only the `tableNode` nodes, which are the tables | not executed; in this snapshot `SchemaBuilder.js` imports the export modal but does not render it | SchemaExport.ColourChooserBreaksExport | SchemaExport.SqlForTablesOkIff |
| src/components/schema/SchemaBuilder.js:237 | `handleAddNewTable` sets the new id to `table-${nodes.length + 1}` | add tables `table-1` and `table-2`, delete `table-1`, add a table: it gets `table-2` again, so two nodes on the canvas share the id `table-2` (in this snapshot `handleTableNameChange` is not passed to any table node, so no rename reaches them) | an id no node on the canvas holds | not executed | SchemaBuilder.NewTableIdReused | SchemaBuilder.FreshTableNode |
