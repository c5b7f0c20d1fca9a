# Sqoop Avro schema generator, modelled in Dafny

Sqoop's `AvroSchemaGenerator` turns a table's column metadata into an Avro
record schema. The metadata is the ordered column names plus, for each name, its
SQL type code, precision and scale. Every column becomes a field whose type is a
two-branch union: `null` first, then the value type. The value type is picked by
three rules, checked in this order:

1. **Decimal logical type.** The configuration flag is on and the SQL type is
   `DECIMAL` (3) or `NUMERIC` (2). The branch is `bytes` annotated with the
   connection manager's logical type. The `--map-column-java` override is never
   consulted on this path.
2. **Override.** The column has an entry in `--map-column-java`. The entry is
   compared case-insensitively with `INTEGER`, `LONG`, `BOOLEAN`, `FLOAT`,
   `DOUBLE`, `STRING` and `BYTES`. Any other token throws
   `IllegalArgumentException("Cannot convert to AVRO type " + token)`.
3. **Default.** Otherwise the connection manager's mapping for
   (table, column, SQL type) is used.

The record's fields follow the column order. Each field has:

- the cleaned column name;
- a JSON `null` default;
- the properties `columnName` (the original name) and `sqlType` (`Integer.toString` of the code).

The record name is chosen as follows:

- the explicit schema name, when one is given;
- otherwise `AutoGeneratedSchema` for a query import (no table name);
- otherwise the table's short class name;
- otherwise the table name.

The record's doc is `"Sqoop import of " + t`, and its `tableName` property is
`t`. Here `t` is the table name, or `QueryResult` for a query import.

Files:

- `wrappers.dfy`: `Option` (Java `null`) and `Result` (Java exceptions).
- `java_lang.dfy`: module `JavaLang`. It holds the 32-bit `int`,
  `Integer.toString` and `String.equalsIgnoreCase` against an upper-case ASCII
  keyword.
- `avro.dfy`: module `Avro`. It holds Avro schemas and fields as immutable values.
- `avro_schema_generator.dfy`: module `AvroSchemaGenerator`. It holds type
  resolution, record assembly, and the lemmas about both.

Modelling choices:

- **Generator as a value.** The generator object only has final fields, so it is
  the value `Generator(options, connManager, tableName)`.
- **Collaborators as function fields.** `ConnManager`, `TableClassName` and the
  identifier cleaners become records of total functions, so every property holds
  for every choice of them.
- **`Generate` is a method.** It walks the columns in a loop and appends one field
  at a time, as the source does. It is proved equal to the function
  `GeneratedSchema`, and the lemmas state what that function guarantees.
- **Errors are `Failure` results.**
  - `IllegalArgumentException` for a bad override token.
  - `NullPointerException` for a column with no entry in the column information
    (`columnInfo.get` returns `null`).
  - `NullPointerException` for the single-argument `toAvroSchema(int)` off the
    decimal path. It passes a `null` column name, and `Properties.containsKey(null)`
    throws.

Three details of the source decide the outcome:

- The decimal path is tested before the override table is consulted
  (AvroSchemaGenerator.java lines 129-136).
- The doc is `"Sqoop import of " + t` (line 110).
- `toAvroSchema(int)` passes a null column name, so off the decimal path
  `Properties.containsKey(null)` throws (lines 142, 148).

`String.equalsIgnoreCase` is modelled by `FoldCase`. It treats four non-ASCII
characters the way Java does:

- `ı` (U+0131) and `İ` (U+0130) match `I`, so `ınteger` selects `int`;
- `ſ` (U+017F) matches `S`;
- `K` (U+212A) matches `K`.

## Model

| member | source | states |
|---|---|---|
| `AvroSchemaGenerator.IsLogicalType` | src/java/org/apache/sqoop/orm/AvroSchemaGenerator.java:173-181 | true exactly for `DECIMAL` and `NUMERIC`, false for every other code |
| `AvroSchemaGenerator.OverrideType` | src/java/org/apache/sqoop/orm/AvroSchemaGenerator.java:154-163 | a selected type is a non-null type whose keyword the token spells ignoring case; no type is selected only when the token spells none of the seven keywords |
| `AvroSchemaGenerator.KeywordsDistinct` | src/java/org/apache/sqoop/orm/AvroSchemaGenerator.java:154-160 | no two of the seven keywords match each other ignoring case, so the order of the if-chain does not matter |
| `AvroSchemaGenerator.OverrideTypeExact` | src/java/org/apache/sqoop/orm/AvroSchemaGenerator.java:154-160 | a token selects type `t` if and only if it equals `t`'s keyword ignoring case |
| `AvroSchemaGenerator.OverrideTypeIgnoresCase` | src/java/org/apache/sqoop/orm/AvroSchemaGenerator.java:154-160 | two tokens that agree up to case select the same type, or both select none |
| `AvroSchemaGenerator.OverrideTypeExamples` | src/java/org/apache/sqoop/orm/AvroSchemaGenerator.java:154-163 | `integer`, `Long` and `ınteger` are accepted; `INT` is rejected |
| `AvroSchemaGenerator.ToAvroType` | src/java/org/apache/sqoop/orm/AvroSchemaGenerator.java:145-167 | null column name: `NullPointerException`; overridden column: a type whose keyword the token spells, or `IllegalArgumentException` with the token when it spells none; otherwise exactly the connection manager's mapping |
| `AvroSchemaGenerator.ToAvroSchema` | src/java/org/apache/sqoop/orm/AvroSchemaGenerator.java:126-171 | every schema returned is a two-branch union with `null` first; on the decimal path the second branch is `bytes` carrying the connection manager's logical type for the generator's table, the column, SQL type, precision and scale (`toAvroLogicalType`, inlined); otherwise the second branch is the value type, and its errors are exactly the value type's |
| `AvroSchemaGenerator.ToAvroSchemaOfType` | src/java/org/apache/sqoop/orm/AvroSchemaGenerator.java:141-143 | the decimal path gives the logical type with null column, precision and scale; any other type throws `NullPointerException` |
| `AvroSchemaGenerator.OverrideDecidesType` | src/java/org/apache/sqoop/orm/AvroSchemaGenerator.java:148-160 | off the decimal path, a valid override gives the union of `null` and the override's type, whatever the SQL type |
| `AvroSchemaGenerator.InvalidOverrideFails` | src/java/org/apache/sqoop/orm/AvroSchemaGenerator.java:162-163 | off the decimal path, an override naming no type fails with `IllegalArgumentException` quoting the token, and no schema is returned |
| `AvroSchemaGenerator.DecimalPathIgnoresOverrides` | src/java/org/apache/sqoop/orm/AvroSchemaGenerator.java:129-134 | on the decimal path, replacing the override table by any other gives the same schema, so overrides are not consulted |
| `AvroSchemaGenerator.AvroName` | src/java/org/apache/sqoop/orm/AvroSchemaGenerator.java:104-107 | the record name is the explicit schema name if given, else `AutoGeneratedSchema` with no table, else the short class name, falling back to the table name |
| `AvroSchemaGenerator.Generate` | src/java/org/apache/sqoop/orm/AvroSchemaGenerator.java:82-115 | the schema built field by field in the loop is the one `GeneratedSchema` specifies, including the error of the first failing column |
| `AvroSchemaGenerator.GenerateDefault` | src/java/org/apache/sqoop/orm/AvroSchemaGenerator.java:78-80 | `generate()` is `generate(null)` |
| `AvroSchemaGenerator.ColumnFieldsSpec` | src/java/org/apache/sqoop/orm/AvroSchemaGenerator.java:89-101 | one field per column in order, none dropped or duplicated; success iff every column's field is built; on failure, the error is the first failing column's |
| `AvroSchemaGenerator.GeneratedFields` | src/java/org/apache/sqoop/orm/AvroSchemaGenerator.java:89-101 | field i comes from column i: cleaned name, `toAvroSchema(sqlType, name, precision, scale)` as a nullable union, no doc, JSON `null` default, and props `columnName` = original name and `sqlType` = decimal string of the code |
| `AvroSchemaGenerator.GeneratedFailure` | src/java/org/apache/sqoop/orm/AvroSchemaGenerator.java:89-101 | generation succeeds iff every column has information and a resolvable type; otherwise it fails with the first failing column's error |
| `AvroSchemaGenerator.GeneratedRecord` | src/java/org/apache/sqoop/orm/AvroSchemaGenerator.java:103-113 | the record's name, doc (`Sqoop import of` + table or `QueryResult`), namespace, non-error flag and `tableName` property |
| `AvroSchemaGenerator.GeneratedFieldsIgnoreName` | src/java/org/apache/sqoop/orm/AvroSchemaGenerator.java:103-113 | the schema name override changes only the record name: success and the fields are the same |
| `JavaLang.Digits` | src/java/org/apache/sqoop/orm/AvroSchemaGenerator.java:99 | at least one digit, all digits, no leading zero |
| `JavaLang.IntToString` | src/java/org/apache/sqoop/orm/AvroSchemaGenerator.java:99 | a decimal literal that starts with `-` exactly when the code is negative |
| `JavaLang.DigitsRoundTrip` | src/java/org/apache/sqoop/orm/AvroSchemaGenerator.java:99 | reading the digits of `n` back gives `n` |
| `JavaLang.IntToStringRoundTrip` | src/java/org/apache/sqoop/orm/AvroSchemaGenerator.java:99 | parsing the `sqlType` property gives back the SQL type code |
| `JavaLang.IntToStringInjective` | src/java/org/apache/sqoop/orm/AvroSchemaGenerator.java:99 | distinct SQL type codes give distinct `sqlType` properties |

## Left out

- `PRECISION_TO_BYTE_COUNT` and `MAX_PRECISION` (38) are not modelled. The table
  is computed with floating-point `Math.pow`, `Math.log` and `Math.ceil`, and
  neither `generate` nor `toAvroSchema` reads it.
- Column metadata retrieval through `ClassWriter` is not modelled. That covers
  `getColumnInfo`, `getColumnTypes`, `getColumnNames` and their `IOException`.
  The metadata is an input. `ColumnInfo` always holds a SQL type, so a null
  type element or a list shorter than three, on which `columnInfoList.get`
  and the unboxing at lines 93-95 throw, is not represented.
- `ConnManager.toAvroType`, `ConnManager.toAvroLogicalType`, `TableClassName`,
  `ClassWriter.toJavaIdentifier` and `AvroUtil.toAvroIdentifier` are vendor or
  naming code outside this file. They are arbitrary total functions here, so
  exceptions they might throw are not modelled.
- `Avro.Record` holds the arguments passed to `Schema.createRecord`, not the
  built schema. `createRecord` splits a dotted name into namespace and simple
  name and turns an empty namespace into none; that is not modelled.
- Avro's own validation is not modelled:
  - field-name checks in `new Field(...)`;
  - record-name checks in `Schema.createRecord`;
  - duplicate field names in `setFields`;
  - a union whose second branch is also `null`, which `createUnion` rejects;
  - precision and scale checks in `LogicalType.addToSchema`;
  - `Schema.create` rejecting non-primitive types. `Avro.Type` holds only the
    primitive types.
- Avro schemas and fields are values here. In Java, `addProp` and `setFields`
  change freshly created objects that nothing else can see yet, so the result is
  the same. The insertion order of properties is not kept, because they are maps.
- The Hadoop `Configuration` lookup and `Properties` parsing are not modelled.
  The flag is a boolean and the overrides a map from string to string, so a
  non-string `Properties` value is not represented.
- Logging of overrides is not modelled.
- `JavaLang.EqualsIgnoreCase` is exact only when one side is made of ASCII
  capital letters. That is the only way the generator uses it.
