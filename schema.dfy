/**
 * The database the updaters work on, seen abstractly: a map from table
 * names to tables, each with its columns, its keys and its rows. The
 * schema operations the updaters issue (`create_table`, `drop_column`,
 * `modify_column`, `rename_table`, ...) are total functions on that map;
 * like the schema helper they stand for, each one leaves the database
 * alone when the schema does not allow it (creating a table that exists,
 * renaming onto a name that is taken, changing a column that is absent).
 * Reading a table that does not exist is the one failure: the query
 * errors and the update halts.
 */
module Schema {
  import opened Wrappers
  import opened Php

  /** The tables the updaters name; every other table is `Other`. */
  datatype TableName =
    | Sites | Config | Members | MemberGroups | Roles | MembersRoles
    | RoleGroups | RolesRoleGroups | MembersRoleGroups | Permissions
    | ChannelMemberGroups | ChannelMemberRoles
    | ModuleMemberGroups | ModuleMemberRoles
    | TemplateMemberGroups | TemplateGroupsRoles
    | Statuses | StatusNoAccess | StatusesRoles
    | Templates | TemplateNoAccess | TemplatesRoles
    | UploadPrefs | UploadNoAccess | UploadPrefsRoles
    | RoleSettings
    | LayoutPublishMemberGroups | LayoutPublishMemberRoles
    | EmailCacheMg
    | Sessions | CategoryFields | CategoryFieldData
    | Other(name: string)

  /** Column types, without widths. */
  datatype ColumnKind = IntColumn | VarcharColumn | TextColumn

  datatype Column = Column(kind: ColumnKind, nullable: bool)

  /** A row: the value of each of its columns. */
  type Row = map<string, Value>

  /**
   * A table: its columns, its primary key (empty when it has none), its
   * other keys (indexes) and its rows in storage order.
   */
  datatype Table = Table(columns: map<string, Column>, primary: seq<string>, keys: set<seq<string>>, rows: seq<Row>)

  type Tables = map<TableName, Table>

  /** Why an update stopped. */
  datatype Error =
    | MissingTable(table: TableName)   // a query named a table that does not exist
    | AlterFailed(table: TableName)    // a raw ALTER TABLE statement was rejected

  /** The database after a step, and the error that stopped it, if any. */
  datatype Outcome = Outcome(tables: Tables, failure: Option<Error>) {
    predicate Ok() { failure.None? }
  }

  /** The value of a column in a row: reading an absent column gives NULL. */
  function Get(r: Row, col: string): Value {
    if col in r then r[col] else Null
  }

  /** An integer column declared NOT NULL (`'null' => FALSE`, or `NOT NULL` in raw SQL). */
  const IdColumn := Column(IntColumn, false)

  // ---------------------------------------------------------------------
  // Queries and schema operations

  /** `db->get(name)`: all rows, or an error when the table does not exist. */
  function Select(t: Tables, name: TableName): (r: Result<seq<Row>, Error>)
    ensures r.Success? <==> name in t
    ensures r.Success? ==> r.value == t[name].rows
    ensures r.Failure? ==> r.error == MissingTable(name)
  {
    if name in t then Success(t[name].rows) else Failure(MissingTable(name))
  }

  /** `create_table`: a new empty table, unless one of that name exists. */
  function CreateTable(t: Tables, name: TableName, columns: map<string, Column>, primary: seq<string>, keys: set<seq<string>>): Tables {
    if name in t then t else t[name := Table(columns, primary, keys, [])]
  }

  /** `drop_table`. */
  function DropTable(t: Tables, name: TableName): Tables {
    if name in t then t - {name} else t
  }

  /** `rename_table`: moves the table when the source exists and the target does not. */
  function RenameTable(t: Tables, from: TableName, to: TableName): Tables {
    if from in t && to !in t then (t - {from})[to := t[from]] else t
  }

  /** `add_column`: a new column, unless the table has one of that name. Existing rows keep their values. */
  function AddColumn(t: Tables, name: TableName, col: string, column: Column): Tables {
    if name in t && col !in t[name].columns
    then t[name := t[name].(columns := t[name].columns[col := column])]
    else t
  }

  /** A row without one of its columns. */
  function RowWithout(r: Row, col: string): Row {
    r - {col}
  }

  /** `drop_column`: removes the column from the schema and from every row. */
  function DropColumn(t: Tables, name: TableName, col: string): Tables {
    if name in t && col in t[name].columns then
      var tb := t[name];
      t[name := tb.(columns := tb.columns - {col},
                    rows := seq(|tb.rows|, i requires 0 <= i < |tb.rows| => RowWithout(tb.rows[i], col)))]
    else t
  }

  /** `drop_column` for each of `cols`, in order. */
  function DropColumns(t: Tables, name: TableName, cols: seq<string>): Tables
    decreases |cols|
  {
    if cols == [] then t else DropColumn(DropColumns(t, name, cols[..|cols| - 1]), name, cols[|cols| - 1])
  }

  function RenameInRow(r: Row, from: string, to: string): Row {
    if from == to || from !in r then r else (r - {from})[to := r[from]]
  }

  function RenameInKey(k: seq<string>, from: string, to: string): seq<string> {
    seq(|k|, i requires 0 <= i < |k| => if k[i] == from then to else k[i])
  }

  /**
   * `modify_column`: renames column `from` to `to` and gives it a new type,
   * in the schema, in the keys and in every row. Nothing happens when the
   * column is absent or `to` names another existing column.
   */
  function ModifyColumn(t: Tables, name: TableName, from: string, to: string, column: Column): Tables {
    if name in t && from in t[name].columns && (to == from || to !in t[name].columns) then
      var tb := t[name];
      t[name := Table(
        (tb.columns - {from})[to := column],
        RenameInKey(tb.primary, from, to),
        set k | k in tb.keys :: RenameInKey(k, from, to),
        seq(|tb.rows|, i requires 0 <= i < |tb.rows| => RenameInRow(tb.rows[i], from, to)))]
    else t
  }

  /** `add_key`: a (non-unique) index on `cols`. */
  function AddKey(t: Tables, name: TableName, cols: seq<string>): Tables {
    if name in t then t[name := t[name].(keys := t[name].keys + {cols})] else t
  }

  /** `drop_key(name, 'PRIMARY')`. */
  function DropPrimaryKey(t: Tables, name: TableName): Tables {
    if name in t then t[name := t[name].(primary := [])] else t
  }

  /** `insert_batch` (or one model save per row): appends the rows. */
  function InsertRows(t: Tables, name: TableName, rows: seq<Row>): Tables {
    if name in t then t[name := t[name].(rows := t[name].rows + rows)] else t
  }

  /** `db->update(name, [col => newValue], [col => oldValue])`. */
  function UpdateWhere(rows: seq<Row>, col: string, newValue: Value, oldValue: Value): (r: seq<Row>)
    ensures |r| == |rows|
    ensures forall i :: 0 <= i < |rows| ==> r[i] == if Get(rows[i], col) == oldValue then rows[i][col := newValue] else rows[i]
  {
    seq(|rows|, i requires 0 <= i < |rows| => if Get(rows[i], col) == oldValue then rows[i][col := newValue] else rows[i])
  }

  /** `db->update(name, [col => newValue], [col => oldValue])`: a query error when the table does not exist. */
  function Update(t: Tables, name: TableName, col: string, newValue: Value, oldValue: Value): (r: Result<Tables, Error>)
    ensures r.Success? <==> name in t
    ensures r.Success? ==> r.value.Keys == t.Keys && r.value[name].columns == t[name].columns
    ensures r.Failure? ==> r.error == MissingTable(name)
  {
    if name in t then Success(t[name := t[name].(rows := UpdateWhere(t[name].rows, col, newValue, oldValue))])
    else Failure(MissingTable(name))
  }

  // ---------------------------------------------------------------------
  // Facts about the operations

  /** `t2` differs from `t` at most in the tables named in `touched`. */
  ghost predicate UnchangedOutside(t: Tables, t2: Tables, touched: set<TableName>) {
    forall n :: n !in touched ==> (n in t <==> n in t2) && (n in t ==> t[n] == t2[n])
  }

  lemma UnchangedOutsideTrans(t1: Tables, t2: Tables, t3: Tables, a: set<TableName>, b: set<TableName>)
    requires UnchangedOutside(t1, t2, a) && UnchangedOutside(t2, t3, b)
    ensures UnchangedOutside(t1, t3, a + b)
  {
  }

  /**
   * `drop_column` for each of `cols` touches only that table, keeps it, and
   * leaves exactly its other columns, its keys and its number of rows.
   */
  lemma {:induction false} DropColumnsEffect(t: Tables, name: TableName, cols: seq<string>)
    ensures UnchangedOutside(t, DropColumns(t, name, cols), {name})
    ensures name in DropColumns(t, name, cols) <==> name in t
    ensures name in t ==> var tb := DropColumns(t, name, cols)[name];
      (forall c :: c in tb.columns <==> c in t[name].columns && c !in cols)
      && tb.primary == t[name].primary && tb.keys == t[name].keys && |tb.rows| == |t[name].rows|
    decreases |cols|
  {
    if cols != [] {
      var init := cols[..|cols| - 1];
      DropColumnsEffect(t, name, init);
      var t1 := DropColumns(t, name, init);
      assert DropColumns(t, name, cols) == DropColumn(t1, name, cols[|cols| - 1]);
      forall c ensures c in cols <==> c in init || c == cols[|cols| - 1] {
        assert cols == init + [cols[|cols| - 1]];
      }
    }
  }

  lemma InsertNothing(t: Tables, name: TableName)
    ensures InsertRows(t, name, []) == t
  {
    if name in t {
      assert t[name].rows + [] == t[name].rows;
      assert t[name].(rows := t[name].rows) == t[name];
    }
  }

  lemma InsertRowsTwice(t: Tables, name: TableName, a: seq<Row>, b: seq<Row>)
    ensures InsertRows(InsertRows(t, name, a), name, b) == InsertRows(t, name, a + b)
  {
    if name in t {
      assert t[name].rows + a + b == t[name].rows + (a + b);
    }
  }

  /** Creating a table twice is creating it once. */
  lemma CreateTableIdempotent(t: Tables, name: TableName, columns: map<string, Column>, primary: seq<string>, keys: set<seq<string>>)
    ensures name in CreateTable(t, name, columns, primary, keys)
    ensures var t1 := CreateTable(t, name, columns, primary, keys); CreateTable(t1, name, columns, primary, keys) == t1
  {
  }

  /** A second `modify_column` with the same arguments changes nothing. */
  lemma ModifyColumnIdempotent(t: Tables, name: TableName, from: string, to: string, column: Column)
    requires from != to
    ensures var t1 := ModifyColumn(t, name, from, to, column); ModifyColumn(t1, name, from, to, column) == t1
  {
    var t1 := ModifyColumn(t, name, from, to, column);
    if name in t && from in t[name].columns && to !in t[name].columns {
      assert from !in t1[name].columns;
    }
  }

  /** A second `rename_table` with the same arguments changes nothing. */
  lemma RenameTableIdempotent(t: Tables, from: TableName, to: TableName)
    requires from != to
    ensures var t1 := RenameTable(t, from, to); RenameTable(t1, from, to) == t1
  {
  }

  /** A rename step (`modify_column` then `rename_table`) run twice is run once. */
  lemma ModifyThenRenameIdempotent(t: Tables, src: TableName, dst: TableName, from: string, to: string, column: Column)
    requires src != dst && from != to
    ensures var t1 := RenameTable(ModifyColumn(t, src, from, to, column), src, dst);
      RenameTable(ModifyColumn(t1, src, from, to, column), src, dst) == t1
  {
    var m := ModifyColumn(t, src, from, to, column);
    var t1 := RenameTable(m, src, dst);
    if src in m && dst !in m {
      assert src !in t1;
      assert ModifyColumn(t1, src, from, to, column) == t1;
    } else {
      assert t1 == m;
      ModifyColumnIdempotent(t, src, from, to, column);
    }
  }

  /** `modify_column` changes at most its own table, which it never adds or removes; when it applies, the table has the new column and not the old one. */
  lemma ModifyColumnFrame(t: Tables, name: TableName, from: string, to: string, column: Column)
    ensures var t2 := ModifyColumn(t, name, from, to, column);
      UnchangedOutside(t, t2, {name}) && (name in t2 <==> name in t)
      && (if name in t && from in t[name].columns && (to == from || to !in t[name].columns)
          then to in t2[name].columns && (from != to ==> from !in t2[name].columns)
          else t2 == t)
  {
  }

  /** `rename_table` changes at most the two tables; it moves the source when the target name is free. */
  lemma RenameTableFrame(t: Tables, from: TableName, to: TableName)
    requires from != to
    ensures var t2 := RenameTable(t, from, to);
      UnchangedOutside(t, t2, {from, to})
      && (to in t2 <==> to in t || from in t)
      && (from in t2 <==> from in t && to in t)
      && (from in t && to in t ==> t2 == t)
  {
  }

  /** `modify_column` of a column to its own name only changes that column's type: keys and rows stay as they are. */
  lemma ModifyColumnInPlace(t: Tables, name: TableName, col: string, column: Column)
    ensures ModifyColumn(t, name, col, col, column)
      == if name in t && col in t[name].columns then t[name := t[name].(columns := t[name].columns[col := column])] else t
  {
    if name in t && col in t[name].columns {
      var tb := t[name];
      assert RenameInKey(tb.primary, col, col) == tb.primary;
      assert (set k | k in tb.keys :: RenameInKey(k, col, col)) == tb.keys by {
        forall k | k in tb.keys ensures RenameInKey(k, col, col) == k { }
      }
      assert seq(|tb.rows|, i requires 0 <= i < |tb.rows| => RenameInRow(tb.rows[i], col, col)) == tb.rows;
      assert (tb.columns - {col})[col := column] == tb.columns[col := column];
    }
  }
}

/**
 * The database as the updaters see it: one object whose tables every
 * query and schema operation reads or changes.
 */
module Database {
  import opened Wrappers
  import opened Php
  import opened Schema

  class Database {
    var tables: Tables

    constructor (initial: Tables)
      ensures tables == initial
    {
      tables := initial;
    }

    /** `db->table_exists(name)`. */
    predicate TableExists(name: TableName)
      reads this
    {
      name in tables
    }

    method Get(name: TableName) returns (r: Result<seq<Row>, Error>)
      ensures r == Select(tables, name)
    {
      if name in tables { r := Success(tables[name].rows); } else { r := Failure(MissingTable(name)); }
    }

    method CreateTable(name: TableName, columns: map<string, Column>, primary: seq<string>, keys: set<seq<string>>)
      modifies this
      ensures tables == Schema.CreateTable(old(tables), name, columns, primary, keys)
    {
      tables := Schema.CreateTable(tables, name, columns, primary, keys);
    }

    method DropTable(name: TableName)
      modifies this
      ensures tables == Schema.DropTable(old(tables), name)
    {
      tables := Schema.DropTable(tables, name);
    }

    method RenameTable(from: TableName, to: TableName)
      modifies this
      ensures tables == Schema.RenameTable(old(tables), from, to)
    {
      tables := Schema.RenameTable(tables, from, to);
    }

    method AddColumn(name: TableName, col: string, column: Column)
      modifies this
      ensures tables == Schema.AddColumn(old(tables), name, col, column)
    {
      tables := Schema.AddColumn(tables, name, col, column);
    }

    method DropColumn(name: TableName, col: string)
      modifies this
      ensures tables == Schema.DropColumn(old(tables), name, col)
    {
      tables := Schema.DropColumn(tables, name, col);
    }

    method ModifyColumn(name: TableName, from: string, to: string, column: Column)
      modifies this
      ensures tables == Schema.ModifyColumn(old(tables), name, from, to, column)
    {
      tables := Schema.ModifyColumn(tables, name, from, to, column);
    }

    method AddKey(name: TableName, cols: seq<string>)
      modifies this
      ensures tables == Schema.AddKey(old(tables), name, cols)
    {
      tables := Schema.AddKey(tables, name, cols);
    }

    method DropPrimaryKey(name: TableName)
      modifies this
      ensures tables == Schema.DropPrimaryKey(old(tables), name)
    {
      tables := Schema.DropPrimaryKey(tables, name);
    }

    method Update(name: TableName, col: string, newValue: Value, oldValue: Value) returns (failure: Option<Error>)
      modifies this
      ensures failure.None? <==> Schema.Update(old(tables), name, col, newValue, oldValue).Success?
      ensures failure.None? ==> tables == Schema.Update(old(tables), name, col, newValue, oldValue).value
      ensures failure.Some? ==> tables == old(tables) && failure.value == Schema.Update(old(tables), name, col, newValue, oldValue).error
    {
      match Schema.Update(tables, name, col, newValue, oldValue)
      case Success(t) => tables := t; failure := None;
      case Failure(e) => failure := Some(e);
    }

    method Insert(name: TableName, rows: seq<Row>)
      modifies this
      ensures tables == InsertRows(old(tables), name, rows)
    {
      tables := InsertRows(tables, name, rows);
    }
  }
}
