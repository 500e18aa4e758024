/**
 * The table node on the canvas: its column list and label (the node's `data`
 * object, which the handlers reassign in place) and the add-column form's
 * state cells.
 */
module TableNode {
  import opened JsValues
  import opened JsStrings
  import opened Graph

  /** The column types the form offers, in menu order. */
  const DataTypes: seq<string> :=
    ["varchar", "integer", "text", "boolean", "timestamp", "float",
     "json", "uuid", "date", "time", "decimal", "bigint"]

  /** The type the form starts with. */
  const InitialType: string := "varchar"

  /** The column the form appends: trimmed name, chosen type and flags, and a
      referenced table only for a foreign key. */
  function FormColumn(name: string, colType: string, isPrimary: bool, isForeignKey: bool, referencedTable: string)
    : (c: Column)
    ensures c.name == Str(Trim(name)) && c.colType == Str(colType)
    ensures c.isPrimary == Bool(isPrimary) && c.isForeignKey == Bool(isForeignKey)
    ensures isForeignKey ==> c.referencedTable == Str(referencedTable)
    ensures !isForeignKey ==> c.referencedTable == Undefined
  {
    Column(Str(Trim(name)), Str(colType), Bool(isPrimary), Bool(isForeignKey),
           if isForeignKey then Str(referencedTable) else Undefined)
  }

  class TableNodeView {
    const id: string
    /** Whether the canvas passed an `onTableNameChange` callback. */
    const hasNameCallback: bool
    var columns: seq<Column>      // `data.columns`
    var title: Value              // `data.label`
    var tableName: Value          // the header input's state
    var newColumnName: string
    var newColumnType: string
    var showAddColumn: bool
    var isPrimaryKey: bool
    var isForeignKey: bool
    var referencedTable: string

    /** The initial state cells; the header starts from the node's label. */
    constructor (id: string, data: NodeData, hasNameCallback: bool)
      requires data.columns.Arr?
      ensures this.id == id && this.hasNameCallback == hasNameCallback
      ensures columns == data.columns.items && title == data.title && tableName == data.title
      ensures newColumnName == "" && newColumnType == InitialType && !showAddColumn
      ensures !isPrimaryKey && !isForeignKey && referencedTable == ""
    {
      this.id := id;
      this.hasNameCallback := hasNameCallback;
      columns := data.columns.items;
      title := data.title;
      tableName := data.title;
      newColumnName := "";
      newColumnType := InitialType;
      showAddColumn := false;
      isPrimaryKey := false;
      isForeignKey := false;
      referencedTable := "";
    }

    /** The form's inputs: the "Add Column" button shows the form, and each
        field's `onChange` stores what the user entered. */
    method FillForm(name: string, colType: string, pk: bool, fk: bool, reference: string)
      modifies this`showAddColumn, this`newColumnName, this`newColumnType, this`isPrimaryKey,
               this`isForeignKey, this`referencedTable
      ensures showAddColumn && newColumnName == name && newColumnType == colType
      ensures isPrimaryKey == pk && isForeignKey == fk && referencedTable == reference
    {
      showAddColumn := true;
      newColumnName, newColumnType := name, colType;
      isPrimaryKey, isForeignKey, referencedTable := pk, fk, reference;
    }

    /** Sets the header and the node's label to the typed name, and returns
        the `(id, newName)` pair forwarded to the canvas's callback, if any. */
    method HandleTableNameChange(newName: string) returns (forwarded: Option<(string, string)>)
      modifies this`tableName, this`title
      ensures tableName == Str(newName) && title == Str(newName)
      ensures forwarded == if hasNameCallback then Some((id, newName)) else None
    {
      tableName := Str(newName);
      title := Str(newName);
      forwarded := if hasNameCallback then Some((id, newName)) else None;
    }

    /** Does nothing when the pending name is blank. Otherwise appends the
        form's column after the existing ones and resets the form, keeping the
        selected type. */
    method HandleAddColumn()
      modifies this`columns, this`newColumnName, this`isPrimaryKey, this`isForeignKey,
               this`referencedTable, this`showAddColumn
      ensures Trim(old(newColumnName)) == [] ==>
                && columns == old(columns) && newColumnName == old(newColumnName)
                && isPrimaryKey == old(isPrimaryKey) && isForeignKey == old(isForeignKey)
                && referencedTable == old(referencedTable) && showAddColumn == old(showAddColumn)
      ensures Trim(old(newColumnName)) != [] ==>
                && columns == old(columns) + [FormColumn(old(newColumnName), newColumnType, old(isPrimaryKey),
                                                         old(isForeignKey), old(referencedTable))]
                && newColumnName == "" && !isPrimaryKey && !isForeignKey
                && referencedTable == "" && !showAddColumn
    {
      var name := Trim(newColumnName);
      if name != [] {
        columns := columns + [FormColumn(newColumnName, newColumnType, isPrimaryKey, isForeignKey, referencedTable)];
        newColumnName := "";
        isPrimaryKey := false;
        isForeignKey := false;
        referencedTable := "";
        showAddColumn := false;
      }
    }

    /** `splice(index, 1)` on a copy of the columns. */
    method HandleDeleteColumn(index: int)
      modifies this`columns
      ensures columns == SpliceOne(old(columns), index)
      ensures 0 <= index < |old(columns)| ==>
                |columns| == |old(columns)| - 1
                && columns[..index] == old(columns)[..index]
                && columns[index..] == old(columns)[index + 1..]
    {
      columns := SpliceOne(columns, index);
    }
  }

  /** The 12 types are distinct, and the initial choice is the first. */
  lemma DataTypesDistinct()
    ensures |DataTypes| == 12 && DataTypes[0] == InitialType
    ensures forall i, j :: 0 <= i < j < |DataTypes| ==> DataTypes[i] != DataTypes[j]
  {
  }

  /** Deleting the index just past the old columns undoes an append. */
  lemma DeleteUndoesAppend(cs: seq<Column>, c: Column)
    ensures SpliceOne(cs + [c], |cs|) == cs
  {
    assert (cs + [c])[..|cs|] == cs;
  }

  /** Filling in the form and adding a column, then deleting it again by its
      index, gives back the original columns. A blank name adds nothing. */
  method AddThenDelete(data: NodeData, name: string, colType: string, pk: bool, fk: bool, reference: string)
    returns (added: seq<Column>, restored: seq<Column>, formName: string, formType: string)
    requires data.columns.Arr?
    ensures Trim(name) == [] ==> added == data.columns.items && formName == name
    ensures Trim(name) != [] ==>
              && added == data.columns.items + [FormColumn(name, colType, pk, fk, reference)]
              && formName == ""
    ensures formType == colType
    ensures restored == data.columns.items
  {
    var view := new TableNodeView("t", data, false);
    view.FillForm(name, colType, pk, fk, reference);
    var before := view.columns;
    view.HandleAddColumn();
    added, formName, formType := view.columns, view.newColumnName, view.newColumnType;
    if view.columns != before {
      DeleteUndoesAppend(before, FormColumn(name, colType, pk, fk, reference));
      view.HandleDeleteColumn(|before|);
    }
    restored := view.columns;
  }

  /** Renaming in the header updates the node's label and forwards the new
      name when a callback is present. */
  method RenameForwards(data: NodeData, newName: string) returns (title: Value, forwarded: Option<(string, string)>)
    requires data.columns.Arr?
    ensures title == Str(newName) && forwarded == Some(("t", newName))
  {
    var view := new TableNodeView("t", data, true);
    forwarded := view.HandleTableNameChange(newName);
    title := view.title;
  }
}
