/** The part of the Avro schema model the generator builds, as immutable values. */
module Avro {
  import opened Wrappers

  /** Avro's primitive schema types (the ones `Schema.create` accepts). */
  datatype Type = NULL | BOOLEAN | INT | LONG | FLOAT | DOUBLE | BYTES | STRING

  /** The decimal logical type, as a connection manager derives it from precision and scale. */
  datatype LogicalType = Decimal(precision: int, scale: int)

  /** A field's default: none (Java `null`) or the JSON `null` literal (`NullNode`). */
  datatype DefaultValue = NoDefault | JsonNull

  datatype Schema =
    | Primitive(kind: Type)
      /** `logicalType.addToSchema(Schema.create(kind))` */
    | Annotated(kind: Type, logicalType: LogicalType)
    | Union(branches: seq<Schema>)
    | Record(name: string, doc: string, namespace: Option<string>, isError: bool,
             fields: seq<Field>, props: map<string, string>)

  datatype Field = Field(name: string, schema: Schema, doc: Option<string>,
                         defaultValue: DefaultValue, props: map<string, string>)

  /** A union of exactly two branches whose first branch is `null`: a nullable value. */
  predicate IsNullableUnion(s: Schema) {
    s.Union? && |s.branches| == 2 && s.branches[0] == Primitive(NULL)
  }
}
