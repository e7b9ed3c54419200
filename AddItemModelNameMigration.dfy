/** AddItemModelNameToModelMetadataMigration.java: the one-off migration
    that gives the ModelMetadata table an itemModelName column and a
    composite primary key (id, itemModelName).

    The SQLite connection is modelled by the part of SQLite these
    statements touch: a map from table name to its columns and rows. The
    database does not parse SQL; each text the migration sends is paired
    with a ghost `Statement` saying what that text means, and the contract
    of the call requires that the text is exactly the rendering of that
    statement. The model provider's name set and the system model names
    are parameters, the name set as a sequence in iteration order. */
module ModelMetadataMigration {
  import opened Wrappers

  // ------------------------------------------------------------ the tables

  datatype Value = Text(s: string) | Integer(i: int) | Null

  /** A row maps column names to values; a missing column reads as NULL. */
  type Row = map<string, Value>

  datatype Table = Table(columns: seq<string>, rows: seq<Row>)

  type Tables = map<string, Table>

  function Field(row: Row, column: string): Value {
    if column in row then row[column] else Null
  }

  predicate HasColumns(table: Table, columns: seq<string>) {
    forall i :: 0 <= i < |columns| ==> columns[i] in table.columns
  }

  const Metadata := "ModelMetadata"
  const Copy := "ModelMetadataCopy"
  const ItemModelName := "itemModelName"

  /** The columns of the table `createModelMetadataTable` declares. */
  const MetadataColumns := ["id", ItemModelName, "_deleted", "_lastChangedAt", "_version"]

  /** The columns of the old ModelMetadata the backfill reads. */
  const SourceColumns := ["id", "_deleted", "_lastChangedAt", "_version"]

  // ------------------------------------------------------- the SQL texts

  /** `Wrap.inSingleQuotes`. */
  function InSingleQuotes(s: string): string {
    "'" + s + "'"
  }

  /** The select one model contributes to both queries. */
  function SelectFor(modelName: string): (r: string)
    ensures r != ""
  {
    "SELECT id," + InSingleQuotes(modelName) + " as tableName " + "FROM " + modelName
  }

  /** The model names both loops keep: those not in the system set, in
      iteration order. */
  function UserModels(modelNames: seq<string>, systemModelNames: set<string>): seq<string> {
    if modelNames == [] then []
    else
      var last := modelNames[|modelNames| - 1];
      UserModels(modelNames[..|modelNames| - 1], systemModelNames) + (if last in systemModelNames then [] else [last])
  }

  /** The selects of the given models joined by " UNION ALL ". */
  function UnionOf(models: seq<string>): string {
    if models == [] then ""
    else if |models| == 1 then SelectFor(models[0])
    else UnionOf(models[..|models| - 1]) + " UNION ALL " + SelectFor(models[|models| - 1])
  }

  function DuplicateIdsQuery(models: seq<string>): string {
    "SELECT id, tableName, count(id) as count FROM (" + UnionOf(models) + ") GROUP BY id, tableName HAVING count > 1"
  }

  function BackfillQuery(models: seq<string>): string {
    "INSERT INTO ModelMetadataCopy(id, itemModelName,_deleted,_lastChangedAt,_version) "
    + "select mm.id," + "models.tableName," + "mm._deleted, " + "mm._lastChangedAt," + "mm._version from ModelMetadata mm INNER JOIN ("
    + UnionOf(models) + ") as models on mm.id=models.id;"
  }

  function CreateModelMetadataTable(tableName: string): string {
    "create table " + tableName + " " + "(id text NOT NULL, " + "itemModelName text NOT NULL, "
    + "_deleted integer, " + "_lastChangedAt integer," + "_version integer, " + "PRIMARY KEY (id, itemModelName))"
  }

  const TableInfoQuery := "PRAGMA table_info(ModelMetadata);"

  /** The statements `apply` sends through `execSQL`. */
  datatype Statement =
    | DropMetadata
    | DropCopyIfExists
    | CreateMetadataTable(name: string)
    | Backfill(models: seq<string>)
    | RenameCopyToMetadata

  /** `sql` is the text of the statement. */
  predicate Renders(sql: string, statement: Statement) {
    && (statement.DropMetadata? ==> sql == "DROP TABLE ModelMetadata;")
    && (statement.DropCopyIfExists? ==> sql == "DROP TABLE IF EXISTS ModelMetadataCopy;")
    && (statement.CreateMetadataTable? ==> sql == CreateModelMetadataTable(statement.name))
    && (statement.Backfill? ==> sql == BackfillQuery(statement.models))
    && (statement.RenameCopyToMetadata? ==> sql == "ALTER TABLE ModelMetadataCopy RENAME TO ModelMetadata;")
  }

  /** A model name is in the kept list exactly when the provider has it and
      it is not a system model: system names never reach either query, and
      every other name does. */
  lemma {:induction false} UserModelsMembers(modelNames: seq<string>, systemModelNames: set<string>)
    ensures forall m :: m in UserModels(modelNames, systemModelNames) <==> m in modelNames && m !in systemModelNames
  {
    if modelNames != [] {
      var earlier := modelNames[..|modelNames| - 1];
      UserModelsMembers(earlier, systemModelNames);
      assert modelNames == earlier + [modelNames[|modelNames| - 1]];
    }
  }

  /** Filtering an already filtered list keeps it as it is. */
  lemma {:induction false} UserModelsIdempotent(modelNames: seq<string>, systemModelNames: set<string>)
    ensures UserModels(UserModels(modelNames, systemModelNames), systemModelNames) == UserModels(modelNames, systemModelNames)
  {
    if modelNames != [] {
      var earlier := modelNames[..|modelNames| - 1];
      var last := modelNames[|modelNames| - 1];
      UserModelsIdempotent(earlier, systemModelNames);
      var kept := UserModels(earlier, systemModelNames);
      if last in systemModelNames {
        assert UserModels(modelNames, systemModelNames) == kept + [] == kept;
      } else {
        var again := kept + [last];
        assert again[..|again| - 1] == kept && again[|again| - 1] == last;
      }
    }
  }

  /** The union text is empty exactly when no model is kept; the loops
      rely on this when they test the builder for "" to decide whether a
      separator is due. */
  lemma {:induction false} UnionOfEmptyIff(models: seq<string>)
    ensures UnionOf(models) == "" <==> models == []
  {
  }

  /** Joining two non-empty lists joins their unions with one separator. */
  lemma {:induction false} UnionOfAppend(a: seq<string>, b: seq<string>)
    requires a != [] && b != []
    ensures UnionOf(a + b) == UnionOf(a) + " UNION ALL " + UnionOf(b)
    decreases |b|
  {
    var ab := a + b;
    var last := b[|b| - 1];
    var front := b[..|b| - 1];
    assert ab[..|ab| - 1] == a + front && ab[|ab| - 1] == last;
    assert UnionOf(ab) == UnionOf(a + front) + " UNION ALL " + SelectFor(last);
    if front == [] {
      assert a + front == a;
    } else {
      UnionOfAppend(a, front);
      UnionOfLast(b);
      AppendAssociates(UnionOf(a), UnionOf(front), SelectFor(last));
    }
  }

  lemma UnionOfLast(models: seq<string>)
    requires |models| > 1
    ensures UnionOf(models) == UnionOf(models[..|models| - 1]) + " UNION ALL " + SelectFor(models[|models| - 1])
  {
  }

  lemma AppendAssociates(x: string, y: string, z: string)
    ensures (x + " UNION ALL " + y) + " UNION ALL " + z == x + " UNION ALL " + (y + " UNION ALL " + z)
  {
  }

  // ------------------------------------------------- what the SQL does

  /** `SELECT id, '<m>' as tableName FROM <m>` for each model, in order;
      None when a table or its id column is missing. */
  function UnionAll(tables: Tables, models: seq<string>): Option<seq<(Value, string)>> {
    if models == [] then Some([])
    else
      var m := models[|models| - 1];
      match UnionAll(tables, models[..|models| - 1])
      case None => None
      case Some(earlier) =>
        if m !in tables || "id" !in tables[m].columns then None
        else Some(earlier + seq(|tables[m].rows|, k requires 0 <= k < |tables[m].rows| => (Field(tables[m].rows[k], "id"), m)))
  }

  /** The sub-select: with no model the text reads "FROM ()", a syntax
      error. */
  function Union(tables: Tables, models: seq<string>): Option<seq<(Value, string)>> {
    if models == [] then None else UnionAll(tables, models)
  }

  /** A group (id, tableName) has count(id) > 1: the same non-null pair
      occurs twice. */
  predicate HasRepeatedPair(union: seq<(Value, string)>) {
    exists i, j :: 0 <= i < j < |union| && union[i].0 != Null && union[i] == union[j]
  }

  /** Whether the duplicate query yields a row; None when it fails. */
  function DuplicatesFound(tables: Tables, models: seq<string>): Option<bool> {
    match Union(tables, models)
    case None => None
    case Some(union) => Some(HasRepeatedPair(union))
  }

  /** One row the backfill inserts: the metadata row, tagged with the model
      whose table holds its id. */
  function MetadataRow(metadata: Row, tableName: string): Row {
    map["id" := Field(metadata, "id"), ItemModelName := Text(tableName), "_deleted" := Field(metadata, "_deleted"),
        "_lastChangedAt" := Field(metadata, "_lastChangedAt"), "_version" := Field(metadata, "_version")]
  }

  /** The inner join of one metadata row with the union on `mm.id=models.id`
      (NULL equals nothing). */
  function JoinRow(metadata: Row, union: seq<(Value, string)>): seq<Row> {
    if union == [] then []
    else
      var u := union[|union| - 1];
      JoinRow(metadata, union[..|union| - 1]) + (if u.0 != Null && u.0 == Field(metadata, "id") then [MetadataRow(metadata, u.1)] else [])
  }

  function BackfillRows(metadata: seq<Row>, union: seq<(Value, string)>): seq<Row> {
    if metadata == [] then [] else BackfillRows(metadata[..|metadata| - 1], union) + JoinRow(metadata[|metadata| - 1], union)
  }

  /** The composite primary key. */
  function Key(row: Row): (Value, Value) {
    (Field(row, "id"), Field(row, ItemModelName))
  }

  predicate KeysDistinct(rows: seq<Row>) {
    forall i, j :: 0 <= i < j < |rows| ==> Key(rows[i]) != Key(rows[j])
  }

  /** The old table's primary key id: no two rows share a non-null id. */
  predicate IdsDistinct(rows: seq<Row>) {
    forall i, j :: 0 <= i < j < |rows| ==> Field(rows[i], "id") == Null || Field(rows[i], "id") != Field(rows[j], "id")
  }

  /** The join keeps exactly the union entries carrying this row's id. */
  lemma {:induction false} JoinRowMembers(metadata: Row, union: seq<(Value, string)>)
    ensures forall r :: r in JoinRow(metadata, union) <==>
      exists j :: 0 <= j < |union| && union[j].0 != Null && union[j].0 == Field(metadata, "id") && r == MetadataRow(metadata, union[j].1)
  {
    if union != [] {
      var earlier := union[..|union| - 1];
      JoinRowMembers(metadata, earlier);
      assert forall j :: 0 <= j < |earlier| ==> earlier[j] == union[j];
    }
  }

  /** A row is inserted by the backfill exactly when some metadata row and
      some model row share a non-null id; it is that metadata row tagged
      with that model's name. */
  lemma {:induction false} BackfillRowsMembers(metadata: seq<Row>, union: seq<(Value, string)>)
    ensures forall r :: r in BackfillRows(metadata, union) <==>
      exists i, j :: 0 <= i < |metadata| && 0 <= j < |union| && union[j].0 != Null && union[j].0 == Field(metadata[i], "id")
                     && r == MetadataRow(metadata[i], union[j].1)
  {
    if metadata != [] {
      var earlier := metadata[..|metadata| - 1];
      var last := metadata[|metadata| - 1];
      BackfillRowsMembers(earlier, union);
      JoinRowMembers(last, union);
      assert forall i :: 0 <= i < |earlier| ==> earlier[i] == metadata[i];
      forall r | r in BackfillRows(metadata, union)
        ensures exists i, j :: 0 <= i < |metadata| && 0 <= j < |union| && union[j].0 != Null && union[j].0 == Field(metadata[i], "id")
                               && r == MetadataRow(metadata[i], union[j].1)
      {
        if r !in BackfillRows(earlier, union) {
          var j :| 0 <= j < |union| && union[j].0 != Null && union[j].0 == Field(last, "id") && r == MetadataRow(last, union[j].1);
          assert union[j].0 == Field(metadata[|metadata| - 1], "id");
        }
      }
    }
  }

  /** Every inserted row meets the NOT NULL constraints of the new table. */
  lemma BackfillRowsNotNull(metadata: seq<Row>, union: seq<(Value, string)>)
    ensures forall r :: r in BackfillRows(metadata, union) ==> Field(r, "id") != Null && Field(r, ItemModelName).Text?
  {
    BackfillRowsMembers(metadata, union);
  }

  lemma KeysDistinctAppend(a: seq<Row>, b: seq<Row>)
    requires KeysDistinct(a) && KeysDistinct(b)
    requires forall x, y :: x in a && y in b ==> Key(x) != Key(y)
    ensures KeysDistinct(a + b)
  {
    forall i, j | 0 <= i < j < |a + b|
      ensures Key((a + b)[i]) != Key((a + b)[j])
    {
      if j < |a| {
        assert (a + b)[i] == a[i] && (a + b)[j] == a[j];
      } else if i < |a| {
        assert (a + b)[i] in a && (a + b)[j] in b;
      } else {
        assert (a + b)[i] == b[i - |a|] && (a + b)[j] == b[j - |a|];
      }
    }
  }

  /** With no repeated (id, model) pair in the union, one metadata row
      gives rows with distinct keys. */
  lemma {:induction false} JoinRowKeysDistinct(metadata: Row, union: seq<(Value, string)>)
    requires !HasRepeatedPair(union)
    ensures KeysDistinct(JoinRow(metadata, union))
  {
    if union != [] {
      var earlier := union[..|union| - 1];
      var u := union[|union| - 1];
      assert !HasRepeatedPair(earlier) by {
        assert forall j :: 0 <= j < |earlier| ==> earlier[j] == union[j];
      }
      JoinRowKeysDistinct(metadata, earlier);
      if u.0 != Null && u.0 == Field(metadata, "id") {
        JoinRowMembers(metadata, earlier);
        forall x, y | x in JoinRow(metadata, earlier) && y in [MetadataRow(metadata, u.1)]
          ensures Key(x) != Key(y)
        {
          var j :| 0 <= j < |earlier| && earlier[j].0 != Null && earlier[j].0 == Field(metadata, "id") && x == MetadataRow(metadata, earlier[j].1);
          assert earlier[j] == union[j] && union[j] != union[|union| - 1];
        }
        KeysDistinctAppend(JoinRow(metadata, earlier), [MetadataRow(metadata, u.1)]);
      } else {
        assert JoinRow(metadata, union) == JoinRow(metadata, earlier) + [];
      }
    }
  }

  /** The duplicate check and the old table's primary key together keep the
      backfill inside the new composite key: when the duplicate query finds
      no row and the old ids are distinct, the inserted keys are distinct. */
  lemma {:induction false} BackfillKeysDistinct(metadata: seq<Row>, union: seq<(Value, string)>)
    requires !HasRepeatedPair(union) && IdsDistinct(metadata)
    ensures KeysDistinct(BackfillRows(metadata, union))
  {
    if metadata != [] {
      var earlier := metadata[..|metadata| - 1];
      var last := metadata[|metadata| - 1];
      assert IdsDistinct(earlier) by {
        assert forall i :: 0 <= i < |earlier| ==> earlier[i] == metadata[i];
      }
      BackfillKeysDistinct(earlier, union);
      JoinRowKeysDistinct(last, union);
      BackfillRowsMembers(earlier, union);
      JoinRowMembers(last, union);
      forall x, y | x in BackfillRows(earlier, union) && y in JoinRow(last, union)
        ensures Key(x) != Key(y)
      {
        var i, j :| 0 <= i < |earlier| && 0 <= j < |union| && union[j].0 != Null && union[j].0 == Field(earlier[i], "id")
                    && x == MetadataRow(earlier[i], union[j].1);
        assert earlier[i] == metadata[i];
        assert Field(x, "id") == Field(metadata[i], "id") != Null;
        assert Field(y, "id") == Field(last, "id");
      }
      KeysDistinctAppend(BackfillRows(earlier, union), JoinRow(last, union));
    }
  }

  /** What one statement does to the tables; None is the SQLException it
      throws, which leaves the tables as they were. */
  function Run(tables: Tables, statement: Statement): Option<Tables> {
    match statement
    case DropMetadata => if Metadata in tables then Some(tables - {Metadata}) else None
    case DropCopyIfExists => Some(tables - {Copy})
    case CreateMetadataTable(name) => if name in tables then None else Some(tables[name := Table(MetadataColumns, [])])
    case Backfill(models) => RunBackfill(tables, models)
    case RenameCopyToMetadata =>
      if Copy in tables && Metadata !in tables then Some((tables - {Copy})[Metadata := tables[Copy]]) else None
  }

  /** The INSERT ... SELECT: it throws when a table or column it names is
      missing, when the sub-select is empty, or when an inserted key is
      already present. */
  function RunBackfill(tables: Tables, models: seq<string>): Option<Tables> {
    if Metadata !in tables || Copy !in tables then None
    else if !HasColumns(tables[Metadata], SourceColumns) || !HasColumns(tables[Copy], MetadataColumns) then None
    else
      match Union(tables, models)
      case None => None
      case Some(union) =>
        var rows := tables[Copy].rows + BackfillRows(tables[Metadata].rows, union);
        if KeysDistinct(rows) then Some(tables[Copy := Table(tables[Copy].columns, rows)]) else None
  }

  /** The result of a run of statements: the tables, the statements that
      took effect, and whether none threw. */
  datatype Outcome = Outcome(tables: Tables, executed: seq<Statement>, ok: bool)

  function Start(tables: Tables): Outcome {
    Outcome(tables, [], true)
  }

  /** The next `execSQL`: skipped once one has thrown, as the exception
      ends `apply`. */
  function Then(o: Outcome, statement: Statement): Outcome {
    if !o.ok then o
    else
      match Run(o.tables, statement)
      case None => Outcome(o.tables, o.executed, false)
      case Some(next) => Outcome(next, o.executed + [statement], true)
  }

  /** The PRAGMA rows' names: the table's columns, none for a missing table. */
  function ColumnsOf(tables: Tables, name: string): seq<string> {
    if name in tables then tables[name].columns else []
  }

  predicate HasItemModelName(tables: Tables) {
    ItemModelName in ColumnsOf(tables, Metadata)
  }

  /** Lines 57-58: drop ModelMetadata and create it again, empty. */
  function ClearBranch(tables: Tables): Outcome {
    ClearSteps(Start(tables))
  }

  function ClearSteps(o: Outcome): Outcome {
    Then(Then(o, DropMetadata), CreateMetadataTable(Metadata))
  }

  /** Lines 62-70: create the copy, backfill it, drop the original and
      rename the copy in its place. */
  function CopyBranch(tables: Tables, models: seq<string>): Outcome {
    CopySteps(Start(tables), models)
  }

  function CopySteps(o: Outcome, models: seq<string>): Outcome {
    Replaced(Then(Created(o), Backfill(models)))
  }

  /** Lines 62-64: drop any old copy and create it afresh. */
  function Created(o: Outcome): Outcome {
    Then(Then(o, DropCopyIfExists), CreateMetadataTable(Copy))
  }

  /** Lines 68-70: drop the original and rename the copy in its place. */
  function Replaced(o: Outcome): Outcome {
    Then(Then(o, DropMetadata), RenameCopyToMetadata)
  }

  /** `apply`: nothing when the column exists; otherwise the duplicate query
      chooses between clearing the table and copying it over. */
  function ApplyTo(tables: Tables, modelNames: seq<string>, systemModelNames: set<string>): Outcome {
    if HasItemModelName(tables) then Outcome(tables, [], true)
    else
      var models := UserModels(modelNames, systemModelNames);
      match DuplicatesFound(tables, models)
      case None => Outcome(tables, [], false)
      case Some(found) => if found then ClearBranch(tables) else CopyBranch(tables, models)
  }

  // ------------------------------------------------ properties of apply

  /** The table names a statement may create, change or drop. */
  function Writes(statement: Statement): set<string> {
    match statement
    case DropMetadata => {Metadata}
    case DropCopyIfExists => {Copy}
    case CreateMetadataTable(name) => {name}
    case Backfill(_) => {Copy}
    case RenameCopyToMetadata => {Copy, Metadata}
  }

  predicate SameTable(before: Tables, after: Tables, name: string) {
    (name in before <==> name in after) && (name in before ==> before[name] == after[name])
  }

  /** A statement leaves every table outside its write set as it was. */
  lemma ThenWrites(o: Outcome, statement: Statement, name: string)
    requires name !in Writes(statement)
    ensures SameTable(o.tables, Then(o, statement).tables, name)
  {
  }

  /** `apply` creates, changes or drops no table but ModelMetadata and
      ModelMetadataCopy, whatever happens. */
  lemma ApplyKeepsOtherTables(tables: Tables, modelNames: seq<string>, systemModelNames: set<string>, name: string)
    requires name != Metadata && name != Copy
    ensures SameTable(tables, ApplyTo(tables, modelNames, systemModelNames).tables, name)
  {
    var models := UserModels(modelNames, systemModelNames);
    var o1 := Then(Start(tables), DropMetadata);
    ThenWrites(Start(tables), DropMetadata, name);
    ThenWrites(o1, CreateMetadataTable(Metadata), name);
    var c1 := Then(Start(tables), DropCopyIfExists);
    var c2 := Then(c1, CreateMetadataTable(Copy));
    var c3 := Then(c2, Backfill(models));
    var c4 := Then(c3, DropMetadata);
    ThenWrites(Start(tables), DropCopyIfExists, name);
    ThenWrites(c1, CreateMetadataTable(Copy), name);
    ThenWrites(c2, Backfill(models), name);
    ThenWrites(c3, DropMetadata, name);
    ThenWrites(c4, RenameCopyToMetadata, name);
  }

  /** The statements run in the order of lines 57-58 or 62-70: when
      `apply` succeeds without the column present, the statements that
      took effect are exactly those of its branch. */
  lemma ApplyExecutes(tables: Tables, modelNames: seq<string>, systemModelNames: set<string>)
    requires !HasItemModelName(tables)
    ensures var models := UserModels(modelNames, systemModelNames);
      var o := ApplyTo(tables, modelNames, systemModelNames);
      o.ok ==> (DuplicatesFound(tables, models).Some? && o.executed == (
        if DuplicatesFound(tables, models).value then [DropMetadata, CreateMetadataTable(Metadata)]
        else [DropCopyIfExists, CreateMetadataTable(Copy), Backfill(models), DropMetadata, RenameCopyToMetadata]))
  {
    ClearExecutes(tables);
    CopyExecutes(tables, UserModels(modelNames, systemModelNames));
  }

  lemma ClearExecutes(tables: Tables)
    ensures ClearBranch(tables).ok ==> ClearBranch(tables).executed == [DropMetadata, CreateMetadataTable(Metadata)]
  {
    ThenExecutes(Start(tables), DropMetadata);
    ThenExecutes(Then(Start(tables), DropMetadata), CreateMetadataTable(Metadata));
  }

  lemma CopyExecutes(tables: Tables, models: seq<string>)
    ensures CopyBranch(tables, models).ok ==> (CopyBranch(tables, models).executed ==
      [DropCopyIfExists, CreateMetadataTable(Copy), Backfill(models), DropMetadata, RenameCopyToMetadata])
  {
    var c1 := Then(Start(tables), DropCopyIfExists);
    var c2 := Then(c1, CreateMetadataTable(Copy));
    var c3 := Then(c2, Backfill(models));
    var c4 := Then(c3, DropMetadata);
    ThenExecutes(Start(tables), DropCopyIfExists);
    ThenExecutes(c1, CreateMetadataTable(Copy));
    ThenExecutes(c2, Backfill(models));
    ThenExecutes(c3, DropMetadata);
    ThenExecutes(c4, RenameCopyToMetadata);
  }

  /** A step that leaves the run successful has taken effect. */
  lemma ThenExecutes(o: Outcome, statement: Statement)
    ensures Then(o, statement).ok ==> o.ok && Then(o, statement).executed == o.executed + [statement]
  {
  }

  /** The union reads only the model tables. */
  lemma {:induction false} UnionAllReadsModels(before: Tables, after: Tables, models: seq<string>)
    requires forall i :: 0 <= i < |models| ==> SameTable(before, after, models[i])
    ensures UnionAll(before, models) == UnionAll(after, models)
  {
    if models != [] {
      UnionAllReadsModels(before, after, models[..|models| - 1]);
    }
  }

  /** The clearing branch: when the duplicate query finds a row, the
      migration succeeds exactly when ModelMetadata exists, and it then
      leaves that table empty with the new columns. */
  lemma ApplyClears(tables: Tables, modelNames: seq<string>, systemModelNames: set<string>)
    requires !HasItemModelName(tables)
    requires DuplicatesFound(tables, UserModels(modelNames, systemModelNames)) == Some(true)
    ensures var o := ApplyTo(tables, modelNames, systemModelNames);
      (o.ok <==> Metadata in tables)
      && (o.ok ==> Metadata in o.tables && o.tables[Metadata] == Table(MetadataColumns, []))
      && (!o.ok ==> o.tables == tables && o.executed == [])
  {
  }

  /** The first two statements of the copying branch always succeed and
      leave an empty copy table; the model tables the union reads are
      untouched when none of them is the copy. */
  lemma CopyCreated(tables: Tables, models: seq<string>)
    requires Copy !in models
    ensures var created := Then(Then(Start(tables), DropCopyIfExists), CreateMetadataTable(Copy));
      created.ok && created.tables == (tables - {Copy})[Copy := Table(MetadataColumns, [])]
      && UnionAll(created.tables, models) == UnionAll(tables, models)
  {
    var created := (tables - {Copy})[Copy := Table(MetadataColumns, [])];
    UnionAllReadsModels(tables, created, models);
  }

  /** The backfill step of the copying branch: it succeeds exactly when
      ModelMetadata has the columns it reads and the rows it inserts keep
      the new key; then the copy holds exactly those rows. */
  lemma CopyFilled(tables: Tables, models: seq<string>)
    requires Copy !in models && Union(tables, models).Some?
    ensures var created := Then(Then(Start(tables), DropCopyIfExists), CreateMetadataTable(Copy));
      var filled := Then(created, Backfill(models));
      var ready := Metadata in tables && HasColumns(tables[Metadata], SourceColumns);
      var rows := if ready then BackfillRows(tables[Metadata].rows, Union(tables, models).value) else [];
      (filled.ok <==> ready && KeysDistinct(rows))
      && (filled.ok ==> filled.tables == created.tables[Copy := Table(MetadataColumns, rows)])
      && (!filled.ok ==> filled.tables == created.tables)
  {
    CopyCreated(tables, models);
    var created := Then(Then(Start(tables), DropCopyIfExists), CreateMetadataTable(Copy));
    if Metadata in tables {
      var rows := BackfillRows(tables[Metadata].rows, Union(tables, models).value);
      assert created.tables[Copy].rows + rows == rows;
    }
  }

  /** The last two steps of the copying branch succeed after a successful
      backfill and put the copy in the original's place. */
  lemma CopyRenamed(filled: Outcome)
    requires filled.ok && Metadata in filled.tables && Copy in filled.tables
    ensures var o := Then(Then(filled, DropMetadata), RenameCopyToMetadata);
      o.ok && Copy !in o.tables && Metadata in o.tables && o.tables[Metadata] == filled.tables[Copy]
  {
  }

  /** The copying branch: when the duplicate query finds no row, the old
      table is never lost — either every statement took effect and
      ModelMetadata holds the new columns and the backfilled rows and no
      copy is left over, or the old ModelMetadata is still in place. */
  lemma ApplyCopies(tables: Tables, modelNames: seq<string>, systemModelNames: set<string>)
    requires !HasItemModelName(tables)
    requires DuplicatesFound(tables, UserModels(modelNames, systemModelNames)) == Some(false)
    requires Copy !in UserModels(modelNames, systemModelNames)
    ensures var o := ApplyTo(tables, modelNames, systemModelNames);
      var union := Union(tables, UserModels(modelNames, systemModelNames)).value;
      (o.ok ==> Metadata in tables && Copy !in o.tables && Metadata in o.tables
                && o.tables[Metadata] == Table(MetadataColumns, BackfillRows(tables[Metadata].rows, union)))
      && (!o.ok && Metadata in tables ==> Metadata in o.tables && o.tables[Metadata] == tables[Metadata])
  {
    var models := UserModels(modelNames, systemModelNames);
    CopyCreated(tables, models);
    CopyFilled(tables, models);
    var created := Then(Then(Start(tables), DropCopyIfExists), CreateMetadataTable(Copy));
    var filled := Then(created, Backfill(models));
    assert ApplyTo(tables, modelNames, systemModelNames) == Then(Then(filled, DropMetadata), RenameCopyToMetadata);
    if filled.ok {
      CopyRenamed(filled);
    }
  }

  /** The copying branch cannot fail when ModelMetadata exists with the
      columns the backfill reads and its ids are distinct, as its old
      primary key made them. */
  lemma ApplyCopySucceeds(tables: Tables, modelNames: seq<string>, systemModelNames: set<string>)
    requires !HasItemModelName(tables)
    requires DuplicatesFound(tables, UserModels(modelNames, systemModelNames)) == Some(false)
    requires Copy !in UserModels(modelNames, systemModelNames)
    requires Metadata in tables && HasColumns(tables[Metadata], SourceColumns) && IdsDistinct(tables[Metadata].rows)
    ensures ApplyTo(tables, modelNames, systemModelNames).ok
  {
    var models := UserModels(modelNames, systemModelNames);
    BackfillKeysDistinct(tables[Metadata].rows, Union(tables, models).value);
    CopyFilled(tables, models);
    var created := Then(Then(Start(tables), DropCopyIfExists), CreateMetadataTable(Copy));
    var filled := Then(created, Backfill(models));
    CopyRenamed(filled);
    assert ApplyTo(tables, modelNames, systemModelNames) == Then(Then(filled, DropMetadata), RenameCopyToMetadata);
  }

  /** `apply` is idempotent: once it has succeeded, ModelMetadata has the
      itemModelName column, so running it again changes nothing and sends
      no statement. */
  lemma ApplyIdempotent(tables: Tables, modelNames: seq<string>, systemModelNames: set<string>)
    requires ApplyTo(tables, modelNames, systemModelNames).ok
    ensures var after := ApplyTo(tables, modelNames, systemModelNames).tables;
      ApplyTo(after, modelNames, systemModelNames) == Outcome(after, [], true)
  {
    var after := ApplyTo(tables, modelNames, systemModelNames).tables;
    if !HasItemModelName(tables) {
      var models := UserModels(modelNames, systemModelNames);
      var created := Then(Then(Start(tables), DropCopyIfExists), CreateMetadataTable(Copy));
      var filled := Then(created, Backfill(models));
      assert filled.ok ==> filled.tables[Copy].columns == MetadataColumns;
      assert ItemModelName in after[Metadata].columns;
    }
  }

  /** An outcome whose log follows earlier statements. */
  function Shifted(o: Outcome, earlier: seq<Statement>): Outcome {
    Outcome(o.tables, earlier + o.executed, o.ok)
  }

  /** A step does not depend on what was logged before it. */
  lemma ThenShift(o: Outcome, earlier: seq<Statement>, statement: Statement)
    ensures Then(Shifted(o, earlier), statement) == Shifted(Then(o, statement), earlier)
  {
    assert earlier + o.executed + [statement] == earlier + (o.executed + [statement]);
  }

  lemma ClearShift(tables: Tables, earlier: seq<Statement>)
    ensures ClearSteps(Outcome(tables, earlier, true)) == Shifted(ClearBranch(tables), earlier)
  {
    assert Outcome(tables, earlier, true) == Shifted(Start(tables), earlier);
    ThenShift(Start(tables), earlier, DropMetadata);
    ThenShift(Then(Start(tables), DropMetadata), earlier, CreateMetadataTable(Metadata));
  }

  lemma CopyShift(tables: Tables, earlier: seq<Statement>, models: seq<string>)
    ensures CopySteps(Outcome(tables, earlier, true), models) == Shifted(CopyBranch(tables, models), earlier)
  {
    var o0 := Start(tables);
    assert Outcome(tables, earlier, true) == Shifted(o0, earlier);
    var o1 := Then(o0, DropCopyIfExists);
    var o2 := Then(o1, CreateMetadataTable(Copy));
    var o3 := Then(o2, Backfill(models));
    var o4 := Then(o3, DropMetadata);
    ThenShift(o0, earlier, DropCopyIfExists);
    ThenShift(o1, earlier, CreateMetadataTable(Copy));
    ThenShift(o2, earlier, Backfill(models));
    ThenShift(o3, earlier, DropMetadata);
    ThenShift(o4, earlier, RenameCopyToMetadata);
  }

  // ------------------------------------------------------------ the code

  /** The part of the SQLite connection the migration uses. SQL text is not
      parsed: each call also receives the statement the text stands for,
      and its contract demands that the text is that statement's
      rendering. */
  class Database {
    var tables: Tables
    /** The statements `execSQL` has carried out, in order; each arrived as
        its text. */
    var executed: seq<Statement>

    constructor (tables: Tables)
      ensures this.tables == tables && executed == []
    {
      this.tables := tables;
      executed := [];
    }

    /** What SQLite does with a statement once it has parsed the text: a
        statement that throws changes nothing. */
    method Exec(statement: Statement) returns (ok: bool)
      modifies this
      ensures ok == Run(old(tables), statement).Some?
      ensures tables == if ok then Run(old(tables), statement).value else old(tables)
      ensures executed == old(executed) + (if ok then [statement] else [])
    {
      var next := Run(tables, statement);
      if next.None? {
        return false;
      }
      tables := next.value;
      executed := executed + [statement];
      ok := true;
    }

    /** `execSQL` of a text that renders the statement. */
    method ExecSql(sql: string, statement: Statement) returns (ok: bool)
      requires Renders(sql, statement)
      modifies this
      ensures Outcome(tables, executed, ok) == Then(Outcome(old(tables), old(executed), true), statement)
    {
      ok := Exec(statement);
    }

    /** `rawQuery` of the duplicate query and the cursor's first
        `moveToNext`: whether a row came back, None when the query throws. */
    method QueryDuplicates(sql: string, models: seq<string>) returns (found: Option<bool>)
      requires sql == DuplicateIdsQuery(models)
      ensures found == DuplicatesFound(tables, models)
    {
      found := DuplicatesFound(tables, models);
    }

    /** `rawQuery` of the PRAGMA: the name of each column of ModelMetadata,
        none when the table is missing. */
    method TableInfo(sql: string) returns (names: seq<string>)
      requires sql == TableInfoQuery
      ensures names == ColumnsOf(tables, Metadata)
    {
      names := ColumnsOf(tables, Metadata);
    }
  }

  class AddItemModelNameToModelMetadataMigration {
    const database: Database
    /** `modelProvider.modelNames()`, in iteration order. */
    const modelNames: seq<string>
    /** The system model names, from a provider that is not part of this
        model. */
    const systemModelNames: set<string>

    constructor (database: Database, modelNames: seq<string>, systemModelNames: set<string>)
      ensures this.database == database && this.modelNames == modelNames && this.systemModelNames == systemModelNames
    {
      this.database := database;
      this.modelNames := modelNames;
      this.systemModelNames := systemModelNames;
    }

    /** The loop both query builders share: one select per model that is
        not a system model, a separator before each but the first. */
    method AppendModelSelects() returns (sb: string)
      ensures sb == UnionOf(UserModels(modelNames, systemModelNames))
    {
      sb := "";
      for i := 0 to |modelNames|
        invariant sb == UnionOf(UserModels(modelNames[..i], systemModelNames))
      {
        var modelName := modelNames[i];
        ghost var prefix := modelNames[..i + 1];
        ghost var kept := UserModels(modelNames[..i], systemModelNames);
        assert prefix[..i] == modelNames[..i] && prefix[i] == modelName;
        if modelName in systemModelNames {
          assert UserModels(prefix, systemModelNames) == kept + [] == kept;
          continue;
        }
        assert UserModels(prefix, systemModelNames) == kept + [modelName];
        UnionOfEmptyIff(kept);
        if kept != [] {
          assert (kept + [modelName])[..|kept|] == kept;
        }
        if sb != "" {
          sb := sb + " UNION ALL ";
        }
        sb := sb + SelectFor(modelName);
      }
      assert modelNames[..|modelNames|] == modelNames;
    }

    /** `duplicateIds`: whether the duplicate query returns a row. */
    method DuplicateIds() returns (found: Option<bool>)
      ensures found == DuplicatesFound(database.tables, UserModels(modelNames, systemModelNames))
    {
      var sb := AppendModelSelects();
      sb := "SELECT id, tableName, count(id) as count FROM (" + sb;
      sb := sb + ") GROUP BY id, tableName HAVING count > 1";
      found := database.QueryDuplicates(sb, UserModels(modelNames, systemModelNames));
    }

    /** `backfillModelMetadataQuery`. */
    method BackfillModelMetadataQuery() returns (query: string)
      ensures query == BackfillQuery(UserModels(modelNames, systemModelNames))
    {
      var sb := AppendModelSelects();
      sb := "select mm.id," + "models.tableName," + "mm._deleted, " + "mm._lastChangedAt," + "mm._version from ModelMetadata mm INNER JOIN (" + sb;
      sb := sb + ") as models on mm.id=models.id;";
      query := "INSERT INTO ModelMetadataCopy(id, itemModelName,_deleted,_lastChangedAt,_version) " + sb;
    }

    /** `hasItemModelNameColumn`: true iff some column of ModelMetadata is
        named itemModelName. */
    method HasItemModelNameColumn() returns (has: bool)
      ensures has <==> HasItemModelName(database.tables)
    {
      var names := database.TableInfo(TableInfoQuery);
      for i := 0 to |names|
        invariant ItemModelName !in names[..i]
      {
        if names[i] == ItemModelName {
          return true;
        }
      }
      assert names[..|names|] == names;
      return false;
    }

    /** Lines 57-58: the statements of the clearing branch, stopping at the
        first that throws. */
    method ClearMetadata() returns (ok: bool)
      modifies database
      ensures Outcome(database.tables, database.executed, ok) == ClearSteps(Outcome(old(database.tables), old(database.executed), true))
    {
      ok := database.ExecSql("DROP TABLE ModelMetadata;", DropMetadata);
      if !ok {
        return;
      }
      ok := database.ExecSql(CreateModelMetadataTable(Metadata), CreateMetadataTable(Metadata));
    }

    /** Lines 62-70: the statements of the copying branch, stopping at the
        first that throws. */
    method CopyMetadata() returns (ok: bool)
      modifies database
      ensures Outcome(database.tables, database.executed, ok)
        == CopySteps(Outcome(old(database.tables), old(database.executed), true), UserModels(modelNames, systemModelNames))
    {
      ok := CreateCopy();
      if !ok {
        return;
      }
      ok := BackfillCopy();
      if !ok {
        return;
      }
      ok := ReplaceWithCopy();
    }

    method BackfillCopy() returns (ok: bool)
      modifies database
      ensures Outcome(database.tables, database.executed, ok)
        == Then(Outcome(old(database.tables), old(database.executed), true), Backfill(UserModels(modelNames, systemModelNames)))
    {
      var backfill := BackfillModelMetadataQuery();
      ok := database.ExecSql(backfill, Backfill(UserModels(modelNames, systemModelNames)));
    }

    method CreateCopy() returns (ok: bool)
      modifies database
      ensures Outcome(database.tables, database.executed, ok) == Created(Outcome(old(database.tables), old(database.executed), true))
    {
      ok := database.ExecSql("DROP TABLE IF EXISTS ModelMetadataCopy;", DropCopyIfExists);
      if !ok {
        return;
      }
      ok := database.ExecSql(CreateModelMetadataTable(Copy), CreateMetadataTable(Copy));
    }

    method ReplaceWithCopy() returns (ok: bool)
      modifies database
      ensures Outcome(database.tables, database.executed, ok) == Replaced(Outcome(old(database.tables), old(database.executed), true))
    {
      ok := database.ExecSql("DROP TABLE ModelMetadata;", DropMetadata);
      if !ok {
        return;
      }
      ok := database.ExecSql("ALTER TABLE ModelMetadataCopy RENAME TO ModelMetadata;", RenameCopyToMetadata);
    }

    /** `apply`; false when an SQLException escapes. The new tables, the
        statements carried out and the verdict are those of ApplyTo. */
    method Apply() returns (ok: bool)
      modifies database
      ensures var o := ApplyTo(old(database.tables), modelNames, systemModelNames);
        database.tables == o.tables && ok == o.ok && database.executed == old(database.executed) + o.executed
    {
      var has := HasItemModelNameColumn();
      if has {
        return true;
      }
      var found := DuplicateIds();
      if found.None? {
        return false;
      }
      if found.value {
        ok := ClearMetadata();
        ClearShift(old(database.tables), old(database.executed));
      } else {
        ok := CopyMetadata();
        CopyShift(old(database.tables), old(database.executed), UserModels(modelNames, systemModelNames));
      }
    }
  }
}
