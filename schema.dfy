/**
 * Schemas of the persistent and the temporary user models, as maps from a
 * field path to the field's declared type (`User.schema.paths[field].options.type`).
 */
module Schema {
  import Objects

  /** The SchemaTypes a field may be declared with; `OtherType` stands for anything else. */
  datatype FieldType =
    | StringType | NumberType | DateType | BooleanType | BufferType
    | ObjectIdType | MixedType | ArrayType | OtherType(name: string)

  type Schema = map<string, FieldType>

  /** The field of a temporary user that holds its verification token. */
  const TokenField: string := "GENERATED_VERIFYING_URL"

  /**
   * The schema object that `generateTempUserModel` builds: every path of the
   * persistent schema with its declared type, then the token field as a String.
   */
  method DeriveTempSchema(persistent: Schema) returns (temp: Schema)
    ensures temp.Keys == persistent.Keys + {TokenField}
    ensures temp[TokenField] == StringType
    ensures forall f :: f in persistent && f != TokenField ==> temp[f] == persistent[f]
  {
    temp := Objects.CopyFields(persistent);
    temp := temp[TokenField := StringType];
  }
}
