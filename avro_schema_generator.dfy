/**
 * Sqoop's Avro schema generator: turns a table's column metadata into an Avro
 * record schema with one nullable field per column.
 *
 * The generator object only holds final fields (options, connection manager,
 * table name), so it is a value here; the collaborators it calls into
 * (connection manager, table-class naming, identifier cleaning) are records of
 * total functions chosen by the caller.
 */
module AvroSchemaGenerator {
  import opened Wrappers
  import opened JavaLang
  import opened Avro

  /** `java.sql.Types.NUMERIC` and `java.sql.Types.DECIMAL`. */
  const NUMERIC: int32 := 2
  const DECIMAL: int32 := 3

  const DEFAULT_SCHEMA_NAME := "AutoGeneratedSchema"
  /** `TableClassName.QUERY_RESULT`, the table name used for a free-form query import. */
  const QUERY_RESULT := "QueryResult"

  datatype Error =
    | IllegalArgumentException(message: string)
    | NullPointerException

  /** The vendor-specific mappings of a `ConnManager`, keyed by table, column and SQL type. */
  datatype ConnManager = ConnManager(
    toAvroType: (Option<string>, Option<string>, int32) -> Type,
    toAvroLogicalType: (Option<string>, Option<string>, int32, Option<int32>, Option<int32>) -> LogicalType)

  /** What `new TableClassName(options)` answers: a short class name per table and a package. */
  datatype TableClassName = TableClassName(
    shortClassForTable: string -> Option<string>,
    packageForTable: Option<string>)

  /** The options the generator reads. */
  datatype SqoopOptions = SqoopOptions(
    /** The configuration flag enabling the decimal logical type (false when unset). */
    avroLogicalTypeDecimal: bool,
    /** The `--map-column-java` overrides: column name to target type name. */
    mapColumnJava: map<string, string>,
    tableClassName: TableClassName)

  /** `ClassWriter.toJavaIdentifier` and `AvroUtil.toAvroIdentifier`. */
  datatype Identifiers = Identifiers(
    toJavaIdentifier: string -> string,
    toAvroIdentifier: string -> string)

  /** One entry of `ClassWriter.getColumnInfo()`: SQL type, precision and scale. */
  datatype ColumnInfo = ColumnInfo(sqlType: int32, precision: Option<int32>, scale: Option<int32>)

  /** The column names in retrieval order, and the information about each. */
  datatype ColumnMetadata = ColumnMetadata(columnNames: seq<string>, columnInfo: map<string, ColumnInfo>)

  datatype Generator = Generator(options: SqoopOptions, connManager: ConnManager, tableName: Option<string>)

  // ---------------------------------------------------------------------------
  // Type resolution
  // ---------------------------------------------------------------------------

  /** Whether a SQL type code has a logical-type representation. */
  function IsLogicalType(sqlType: int32): (r: bool)
    ensures r <==> sqlType == DECIMAL || sqlType == NUMERIC
  {
    match sqlType
    case 3 => true
    case 2 => true
    case _ => false
  }

  /** The column takes the decimal-logical-type path. */
  predicate DecimalPath(g: Generator, sqlType: int32) {
    g.options.avroLogicalTypeDecimal && IsLogicalType(sqlType)
  }

  /** The override keyword naming each type an override can select. */
  function Keyword(t: Type): string
    requires t != NULL
  {
    match t
    case INT => "INTEGER"
    case LONG => "LONG"
    case BOOLEAN => "BOOLEAN"
    case FLOAT => "FLOAT"
    case DOUBLE => "DOUBLE"
    case STRING => "STRING"
    case BYTES => "BYTES"
  }

  /** The type an override token names, compared case-insensitively; `None` when it names none. */
  function OverrideType(token: string): (r: Option<Type>)
    ensures r.Some? ==> r.value != NULL && EqualsIgnoreCase(token, Keyword(r.value))
    ensures r.None? ==> forall t :: t != NULL ==> !EqualsIgnoreCase(token, Keyword(t))
  {
    if EqualsIgnoreCase(token, "INTEGER") then Some(INT)
    else if EqualsIgnoreCase(token, "LONG") then Some(LONG)
    else if EqualsIgnoreCase(token, "BOOLEAN") then Some(BOOLEAN)
    else if EqualsIgnoreCase(token, "FLOAT") then Some(FLOAT)
    else if EqualsIgnoreCase(token, "DOUBLE") then Some(DOUBLE)
    else if EqualsIgnoreCase(token, "STRING") then Some(STRING)
    else if EqualsIgnoreCase(token, "BYTES") then Some(BYTES)
    else None
  }

  /**
   * The value type of a column outside the decimal path: the override when the
   * column has one, otherwise the connection manager's mapping. The override
   * table is a `java.util.Properties`, which refuses a `null` key.
   */
  function ToAvroType(g: Generator, columnName: Option<string>, sqlType: int32): (r: Result<Type, Error>)
    ensures columnName.None? ==> r == Failure(NullPointerException)
    ensures columnName.Some? && columnName.value in g.options.mapColumnJava ==>
      var token := g.options.mapColumnJava[columnName.value];
      && (r.Success? ==> r.value != NULL && EqualsIgnoreCase(token, Keyword(r.value)))
      && (r.Failure? ==>
            && r.error == IllegalArgumentException("Cannot convert to AVRO type " + token)
            && forall t :: t != NULL ==> !EqualsIgnoreCase(token, Keyword(t)))
    ensures columnName.Some? && columnName.value !in g.options.mapColumnJava ==>
      r == Success(g.connManager.toAvroType(g.tableName, columnName, sqlType))
  {
    if columnName.None? then Failure(NullPointerException)
    else if columnName.value in g.options.mapColumnJava then
      var token := g.options.mapColumnJava[columnName.value];
      match OverrideType(token)
      case Some(t) => Success(t)
      case None => Failure(IllegalArgumentException("Cannot convert to AVRO type " + token))
    else Success(g.connManager.toAvroType(g.tableName, columnName, sqlType))
  }

  /**
   * The schema of one column: a union of `null` and the column's value type. On
   * the decimal path the value type is `bytes` annotated with the connection
   * manager's logical type for this table and column (`toAvroLogicalType`).
   */
  function ToAvroSchema(g: Generator, sqlType: int32, columnName: Option<string>,
                        precision: Option<int32>, scale: Option<int32>): (r: Result<Schema, Error>)
    ensures r.Success? ==> IsNullableUnion(r.value)
    ensures DecimalPath(g, sqlType) ==>
      r == Success(Union([Primitive(NULL),
                          Annotated(BYTES, g.connManager.toAvroLogicalType(g.tableName, columnName, sqlType, precision, scale))]))
    ensures !DecimalPath(g, sqlType) ==>
      && (r.Success? <==> ToAvroType(g, columnName, sqlType).Success?)
      && (r.Success? ==> r.value.branches[1] == Primitive(ToAvroType(g, columnName, sqlType).value))
      && (r.Failure? ==> r.error == ToAvroType(g, columnName, sqlType).error)
  {
    if DecimalPath(g, sqlType) then
      Success(Union([Primitive(NULL), Annotated(BYTES, g.connManager.toAvroLogicalType(g.tableName, columnName, sqlType, precision, scale))]))
    else
      match ToAvroType(g, columnName, sqlType)
      case Failure(e) => Failure(e)
      case Success(t) => Success(Union([Primitive(NULL), Primitive(t)]))
  }

  /** The overload taking only a SQL type: no column name, precision or scale. */
  function ToAvroSchemaOfType(g: Generator, sqlType: int32): (r: Result<Schema, Error>)
    ensures DecimalPath(g, sqlType) ==>
      r == Success(Union([Primitive(NULL),
                          Annotated(BYTES, g.connManager.toAvroLogicalType(g.tableName, None, sqlType, None, None))]))
    ensures !DecimalPath(g, sqlType) ==> r == Failure(NullPointerException)
  {
    ToAvroSchema(g, sqlType, None, None, None)
  }

  // ---------------------------------------------------------------------------
  // Properties of type resolution
  // ---------------------------------------------------------------------------

  /** No keyword matches another one, ignoring case. */
  lemma KeywordsDistinct(a: Type, b: Type)
    requires a != NULL && b != NULL && a != b
    ensures !EqualsIgnoreCase(Keyword(a), Keyword(b))
  {
    var ka, kb := Keyword(a), Keyword(b);
    if |ka| == |kb| {
      assert FoldCase(ka[0]) != FoldCase(kb[0]);
    }
  }

  /** A token selects a type exactly when it spells that type's keyword, in any case. */
  lemma OverrideTypeExact(token: string, t: Type)
    requires t != NULL
    ensures OverrideType(token) == Some(t) <==> EqualsIgnoreCase(token, Keyword(t))
  {
    var r := OverrideType(token);
    if EqualsIgnoreCase(token, Keyword(t)) && r != Some(t) {
      KeywordsDistinct(r.value, t);
      assert false;
    }
  }

  /** Tokens that agree up to case select the same type. */
  lemma OverrideTypeIgnoresCase(s: string, s': string)
    requires |s| == |s'| && forall i :: 0 <= i < |s| ==> FoldCase(s[i]) == FoldCase(s'[i])
    ensures OverrideType(s) == OverrideType(s')
  {
  }

  /** Lower-case, mixed-case and Unicode-folded spellings are accepted; abbreviations are not. */
  lemma OverrideTypeExamples()
    ensures OverrideType("integer") == Some(INT)
    ensures OverrideType("Long") == Some(LONG)
    ensures OverrideType("\U{0131}nteger") == Some(INT)
    ensures OverrideType("INT") == None
  {
  }

  /**
   * Outside the decimal path, a column with a valid override gets the override's
   * type whatever its SQL type.
   */
  lemma OverrideDecidesType(g: Generator, sqlType: int32, columnName: string,
                            precision: Option<int32>, scale: Option<int32>, t: Type)
    requires !DecimalPath(g, sqlType)
    requires columnName in g.options.mapColumnJava
    requires t != NULL && EqualsIgnoreCase(g.options.mapColumnJava[columnName], Keyword(t))
    ensures ToAvroSchema(g, sqlType, Some(columnName), precision, scale)
         == Success(Union([Primitive(NULL), Primitive(t)]))
  {
    OverrideTypeExact(g.options.mapColumnJava[columnName], t);
  }

  /** Outside the decimal path, an override naming no type fails the column, whatever its SQL type. */
  lemma InvalidOverrideFails(g: Generator, sqlType: int32, columnName: string,
                             precision: Option<int32>, scale: Option<int32>)
    requires !DecimalPath(g, sqlType)
    requires columnName in g.options.mapColumnJava
    requires forall t :: t != NULL ==> !EqualsIgnoreCase(g.options.mapColumnJava[columnName], Keyword(t))
    ensures ToAvroSchema(g, sqlType, Some(columnName), precision, scale)
         == Failure(IllegalArgumentException("Cannot convert to AVRO type " + g.options.mapColumnJava[columnName]))
  {
  }

  /** On the decimal path the override table is never consulted: any overrides give the same schema. */
  lemma DecimalPathIgnoresOverrides(g: Generator, overrides: map<string, string>, sqlType: int32,
                                    columnName: Option<string>, precision: Option<int32>, scale: Option<int32>)
    requires DecimalPath(g, sqlType)
    ensures ToAvroSchema(g.(options := g.options.(mapColumnJava := overrides)), sqlType, columnName, precision, scale)
         == ToAvroSchema(g, sqlType, columnName, precision, scale)
  {
  }

  // ---------------------------------------------------------------------------
  // Record assembly
  // ---------------------------------------------------------------------------

  /** The field built for one column, or the error that stops the generation there. */
  function ColumnField(g: Generator, ids: Identifiers, columnInfo: map<string, ColumnInfo>,
                       columnName: string): Result<Field, Error>
  {
    if columnName !in columnInfo then Failure(NullPointerException)
    else
      var info := columnInfo[columnName];
      match ToAvroSchema(g, info.sqlType, Some(columnName), info.precision, info.scale)
      case Failure(e) => Failure(e)
      case Success(s) =>
        Success(Field(ids.toAvroIdentifier(ids.toJavaIdentifier(columnName)), s, None, JsonNull,
                      map["columnName" := columnName, "sqlType" := IntToString(info.sqlType)]))
  }

  /** The fields of the given columns, in order, or the first column's error. */
  function ColumnFields(g: Generator, ids: Identifiers, columnInfo: map<string, ColumnInfo>,
                        columnNames: seq<string>): Result<seq<Field>, Error>
  {
    if columnNames == [] then Success([])
    else
      match ColumnField(g, ids, columnInfo, columnNames[0])
      case Failure(e) => Failure(e)
      case Success(f) =>
        match ColumnFields(g, ids, columnInfo, columnNames[1..])
        case Failure(e) => Failure(e)
        case Success(fs) => Success([f] + fs)
  }

  /** `fields` followed by the fields in `rest`, unless `rest` failed. */
  function Prepend(fields: seq<Field>, rest: Result<seq<Field>, Error>): Result<seq<Field>, Error> {
    match rest
    case Failure(e) => Failure(e)
    case Success(fs) => Success(fields + fs)
  }

  lemma PrependNothing(rest: Result<seq<Field>, Error>)
    ensures Prepend([], rest) == rest
  {
    if rest.Success? {
      assert [] + rest.value == rest.value;
    }
  }

  lemma PrependTwice(first: seq<Field>, second: seq<Field>, rest: Result<seq<Field>, Error>)
    ensures Prepend(first, Prepend(second, rest)) == Prepend(first + second, rest)
  {
    if rest.Success? {
      assert first + (second + rest.value) == (first + second) + rest.value;
    }
  }

  /** The table name the record documents: the query-result name for a query import. */
  function AvroTableName(g: Generator): string {
    if g.tableName.None? then QUERY_RESULT else g.tableName.value
  }

  /** The record name before any explicit override. */
  function ShortClassName(g: Generator): Option<string> {
    if g.tableName.None? then Some(DEFAULT_SCHEMA_NAME)
    else g.options.tableClassName.shortClassForTable(g.tableName.value)
  }

  /** The record name. */
  function AvroName(g: Generator, schemaNameOverride: Option<string>): (name: string)
    ensures schemaNameOverride.Some? ==> name == schemaNameOverride.value
    ensures schemaNameOverride.None? && g.tableName.None? ==> name == DEFAULT_SCHEMA_NAME
    ensures schemaNameOverride.None? && g.tableName.Some? ==>
      var short := g.options.tableClassName.shortClassForTable(g.tableName.value);
      name == if short.Some? then short.value else g.tableName.value
  {
    if schemaNameOverride.Some? then schemaNameOverride.value
    else match ShortClassName(g)
      case None => AvroTableName(g)
      case Some(s) => s
  }

  /** The schema `generate(schemaNameOverride)` returns, or the error it throws. */
  function GeneratedSchema(g: Generator, ids: Identifiers, meta: ColumnMetadata,
                           schemaNameOverride: Option<string>): Result<Schema, Error>
  {
    match ColumnFields(g, ids, meta.columnInfo, meta.columnNames)
    case Failure(e) => Failure(e)
    case Success(fields) =>
      var avroTableName := AvroTableName(g);
      Success(Record(AvroName(g, schemaNameOverride), "Sqoop import of " + avroTableName,
                     g.options.tableClassName.packageForTable, false, fields,
                     map["tableName" := avroTableName]))
  }

  /** Builds the record schema of the generator's table, one field per column, in column order. */
  method Generate(g: Generator, ids: Identifiers, meta: ColumnMetadata, schemaNameOverride: Option<string>)
    returns (r: Result<Schema, Error>)
    ensures r == GeneratedSchema(g, ids, meta, schemaNameOverride)
  {
    var columnInfo := meta.columnInfo;
    var columnNames := meta.columnNames;
    var fields: seq<Field> := [];
    var i := 0;
    assert columnNames[i..] == columnNames;
    PrependNothing(ColumnFields(g, ids, columnInfo, columnNames));
    while i < |columnNames|
      invariant 0 <= i <= |columnNames|
      invariant ColumnFields(g, ids, columnInfo, columnNames)
             == Prepend(fields, ColumnFields(g, ids, columnInfo, columnNames[i..]))
    {
      var columnName := columnNames[i];
      assert columnNames[i..][0] == columnName && columnNames[i..][1..] == columnNames[i + 1..];
      var cleanedCol := ids.toAvroIdentifier(ids.toJavaIdentifier(columnName));
      if columnName !in columnInfo {
        return Failure(NullPointerException);
      }
      var info := columnInfo[columnName];
      var avroSchema := ToAvroSchema(g, info.sqlType, Some(columnName), info.precision, info.scale);
      if avroSchema.Failure? {
        return Failure(avroSchema.error);
      }
      var field := Field(cleanedCol, avroSchema.value, None, JsonNull, map[]);
      field := field.(props := field.props["columnName" := columnName]);
      field := field.(props := field.props["sqlType" := IntToString(info.sqlType)]);
      assert field.props == map["columnName" := columnName, "sqlType" := IntToString(info.sqlType)];
      assert ColumnField(g, ids, columnInfo, columnName) == Success(field);
      assert ColumnFields(g, ids, columnInfo, columnNames[i..])
          == Prepend([field], ColumnFields(g, ids, columnInfo, columnNames[i + 1..]));
      PrependTwice(fields, [field], ColumnFields(g, ids, columnInfo, columnNames[i + 1..]));
      fields := fields + [field];
      i := i + 1;
    }
    assert fields + [] == fields;
    var avroTableName := AvroTableName(g);
    var avroName := AvroName(g, schemaNameOverride);
    var avroNamespace := g.options.tableClassName.packageForTable;
    var doc := "Sqoop import of " + avroTableName;
    var schema := Record(avroName, doc, avroNamespace, false, [], map[]);
    schema := schema.(fields := fields);
    schema := schema.(props := schema.props["tableName" := avroTableName]);
    return Success(schema);
  }

  /** The no-argument `generate()`: no schema name override. */
  method GenerateDefault(g: Generator, ids: Identifiers, meta: ColumnMetadata)
    returns (r: Result<Schema, Error>)
    ensures r == GeneratedSchema(g, ids, meta, None)
  {
    r := Generate(g, ids, meta, None);
  }

  // ---------------------------------------------------------------------------
  // Properties of record assembly
  // ---------------------------------------------------------------------------

  /** The column fields are built one per column, in order, and fail at the first failing column. */
  lemma {:induction false} ColumnFieldsSpec(g: Generator, ids: Identifiers, columnInfo: map<string, ColumnInfo>,
                                            columnNames: seq<string>)
    ensures var r := ColumnFields(g, ids, columnInfo, columnNames);
      && (r.Success? <==> forall i :: 0 <= i < |columnNames| ==> ColumnField(g, ids, columnInfo, columnNames[i]).Success?)
      && (r.Success? ==>
            && |r.value| == |columnNames|
            && forall i :: 0 <= i < |columnNames| ==> ColumnField(g, ids, columnInfo, columnNames[i]) == Success(r.value[i]))
      && (r.Failure? ==>
            exists k :: 0 <= k < |columnNames|
              && ColumnField(g, ids, columnInfo, columnNames[k]) == Failure(r.error)
              && forall j :: 0 <= j < k ==> ColumnField(g, ids, columnInfo, columnNames[j]).Success?)
  {
    if columnNames != [] {
      var tail := columnNames[1..];
      ColumnFieldsSpec(g, ids, columnInfo, tail);
      assert forall i :: 1 <= i < |columnNames| ==> columnNames[i] == tail[i - 1];
      var r := ColumnFields(g, ids, columnInfo, columnNames);
      if r.Failure? && ColumnField(g, ids, columnInfo, columnNames[0]).Success? {
        var k :| 0 <= k < |tail|
          && ColumnField(g, ids, columnInfo, tail[k]) == Failure(r.error)
          && forall j :: 0 <= j < k ==> ColumnField(g, ids, columnInfo, tail[j]).Success?;
        assert ColumnField(g, ids, columnInfo, columnNames[k + 1]) == Failure(r.error);
      }
    }
  }

  /**
   * The i-th field of a generated schema is built from the i-th column: its name
   * is the cleaned column name, its type the column's nullable union, its default
   * JSON `null`, it has no doc, and it records the original column name and SQL type code.
   */
  lemma GeneratedFields(g: Generator, ids: Identifiers, meta: ColumnMetadata, schemaNameOverride: Option<string>)
    ensures var r := GeneratedSchema(g, ids, meta, schemaNameOverride);
      r.Success? ==>
        && |r.value.fields| == |meta.columnNames|
        && forall i :: 0 <= i < |meta.columnNames| ==>
             var c := meta.columnNames[i];
             && c in meta.columnInfo
             && var info := meta.columnInfo[c];
             && r.value.fields[i].name == ids.toAvroIdentifier(ids.toJavaIdentifier(c))
             && Success(r.value.fields[i].schema) == ToAvroSchema(g, info.sqlType, Some(c), info.precision, info.scale)
             && IsNullableUnion(r.value.fields[i].schema)
             && r.value.fields[i].doc == None
             && r.value.fields[i].defaultValue == JsonNull
             && r.value.fields[i].props == map["columnName" := c, "sqlType" := IntToString(info.sqlType)]
  {
    ColumnFieldsSpec(g, ids, meta.columnInfo, meta.columnNames);
  }

  /**
   * Generation succeeds exactly when every column is described and has a valid
   * type; otherwise it fails with the error of the first column that does not.
   */
  lemma GeneratedFailure(g: Generator, ids: Identifiers, meta: ColumnMetadata, schemaNameOverride: Option<string>)
    ensures var r := GeneratedSchema(g, ids, meta, schemaNameOverride);
      && (r.Success? <==> forall i :: 0 <= i < |meta.columnNames| ==>
            var c := meta.columnNames[i];
            c in meta.columnInfo &&
            ToAvroSchema(g, meta.columnInfo[c].sqlType, Some(c), meta.columnInfo[c].precision, meta.columnInfo[c].scale).Success?)
      && (r.Failure? ==>
            (exists k :: 0 <= k < |meta.columnNames|
              && ColumnField(g, ids, meta.columnInfo, meta.columnNames[k]) == Failure(r.error)
              && forall j :: 0 <= j < k ==> ColumnField(g, ids, meta.columnInfo, meta.columnNames[j]).Success?))
  {
    ColumnFieldsSpec(g, ids, meta.columnInfo, meta.columnNames);
  }

  /**
   * A generated record is named by the override, else by the default name for a
   * query import, else by the table's short class name or the table name; its
   * documentation and `tableName` property name the table, or the query result.
   */
  lemma GeneratedRecord(g: Generator, ids: Identifiers, meta: ColumnMetadata, schemaNameOverride: Option<string>)
    ensures var r := GeneratedSchema(g, ids, meta, schemaNameOverride);
      r.Success? ==>
        && r.value.Record?
        && r.value.name == AvroName(g, schemaNameOverride)
        && (schemaNameOverride.None? && g.tableName.None? ==> r.value.name == "AutoGeneratedSchema")
        && (schemaNameOverride.Some? ==> r.value.name == schemaNameOverride.value)
        && r.value.doc == "Sqoop import of " + (if g.tableName.Some? then g.tableName.value else "QueryResult")
        && r.value.props == map["tableName" := if g.tableName.Some? then g.tableName.value else "QueryResult"]
        && r.value.namespace == g.options.tableClassName.packageForTable
        && !r.value.isError
  {
  }

  /** The fields, and whether generation fails, do not depend on the schema name override. */
  lemma GeneratedFieldsIgnoreName(g: Generator, ids: Identifiers, meta: ColumnMetadata, n1: Option<string>, n2: Option<string>)
    ensures GeneratedSchema(g, ids, meta, n1).Success? <==> GeneratedSchema(g, ids, meta, n2).Success?
    ensures GeneratedSchema(g, ids, meta, n1).Success? ==>
      GeneratedSchema(g, ids, meta, n1).value.fields == GeneratedSchema(g, ids, meta, n2).value.fields
  {
  }
}
